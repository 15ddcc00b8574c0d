/**
 The queue of batches waiting to be proposed on L1. One proposal is made at a time. The main
 results are over every run: what was accepted is posted, queued or dropped, in order, and no
 two queued batches overlap.
 */
module Submission {
  import opened Integers
  import opened Wrappers
  import opened Batches
  import opened Throttle

  const DA_THROTTLE_THRESHOLD: nat := 1

  datatype Request = Request(batch: Batch, deadline: nat)

  datatype ProposalError = NonceTooLow | ProposalFailed(code: nat)

  /** A receipt, or why there is none. */
  type BatchResult = Result<nat, ProposalError>

  datatype Cmd = Submit(request: Request) | ClearQueue | GetSuggestedMaxSize

  /** What is ready on one pass of the loop: the proposal in flight, and commands. */
  datatype Ready = Ready(proposal: Option<BatchResult>, cmds: seq<Cmd>)

  /** What became of a request that left the queue. */
  datatype Fate = Posted | Dropped

  /**
   The state, with its history: all requests ever accepted, what became of those that left the
   queue, the requests handed to the poster, and the outcomes it came back with.
   */
  datatype State = State(
    queue: seq<Request>, pending: Option<Request>, results: seq<BatchResult>, replies: seq<nat>,
    accepted: seq<Request>, fates: seq<Fate>, posted: seq<Request>, outcomes: seq<BatchResult>)

  predicate RangesOverlap(a: (nat, nat), b: (nat, nat)) {
    a.0 <= b.1 && b.0 <= a.1
  }

  predicate OverlapsQueue(queue: seq<Request>, batch: Batch) {
    exists i :: 0 <= i < |queue| && RangesOverlap(queue[i].batch.BlocksRange(), batch.BlocksRange())
  }

  function Drops(n: nat): (r: seq<Fate>)
    ensures |r| == n && forall i :: 0 <= i < n ==> r[i] == Dropped
  {
    seq(n, i => Dropped)
  }

  // Every queued request is dropped.
  function Cleared(s: State): State {
    s.(queue := [], fates := s.fates + Drops(|s.queue|))
  }

  function Handled(s: State, request: Request): State {
    if OverlapsQueue(s.queue, request.batch) then s
    else s.(queue := s.queue + [request], accepted := s.accepted + [request])
  }

  function Commanded(s: State, cmd: Cmd, maxSize: nat, factor: nat): State
    requires factor >= 1
  {
    match cmd
    case Submit(request) => Handled(s, request)
    case ClearQueue => Cleared(s)
    case GetSuggestedMaxSize => s.(replies := s.replies + [Throttled(maxSize, factor, |s.queue|)])
  }

  function AllCommanded(s: State, cmds: seq<Cmd>, maxSize: nat, factor: nat): State
    requires factor >= 1
    decreases |cmds|
  {
    if cmds == [] then s
    else Commanded(AllCommanded(s, cmds[..|cmds| - 1], maxSize, factor), cmds[|cmds| - 1], maxSize, factor)
  }

  // A nonce that is too low keeps the queue and reports nothing; any other error clears it.
  function Proposed(s: State, res: BatchResult): State {
    var done := s.(pending := None, outcomes := s.outcomes + [res]);
    match res
    case Ok(_) => done.(results := s.results + [res])
    case Err(NonceTooLow) => done
    case Err(_) => Cleared(done).(results := s.results + [res])
  }

  function Popped(s: State): State {
    if s.pending.None? && s.queue != [] then
      s.(queue := s.queue[1..], pending := Some(s.queue[0]), posted := s.posted + [s.queue[0]], fates := s.fates + [Posted])
    else s
  }

  // One pass of the loop.
  function Turned(s: State, ready: Ready, maxSize: nat, factor: nat): State
    requires factor >= 1
  {
    var a := if s.pending.Some? && ready.proposal.Some? then Proposed(s, ready.proposal.value) else s;
    AllCommanded(Popped(a), ready.cmds, maxSize, factor)
  }

  function Start(): State {
    State([], None, [], [], [], [], [], [])
  }

  class BatchSubmissionProcessor {
    var queue: seq<Request>
    var pending: Option<Request>
    var results: seq<BatchResult>
    var replies: seq<nat>
    var posted: seq<Request>
    const maxBlockSize: nat
    const daThrottlingFactor: nat
    ghost var accepted: seq<Request>
    ghost var fates: seq<Fate>
    ghost var outcomes: seq<BatchResult>

    constructor (maxBlockSize: nat, daThrottlingFactor: nat)
      ensures Value() == Start()
      ensures this.maxBlockSize == maxBlockSize && this.daThrottlingFactor == daThrottlingFactor
    {
      this.maxBlockSize, this.daThrottlingFactor := maxBlockSize, daThrottlingFactor;
      queue, pending, results, replies, posted := [], None, [], [], [];
      accepted, fates, outcomes := [], [], [];
    }

    ghost function Value(): State
      reads this
    {
      State(queue, pending, results, replies, accepted, fates, posted, outcomes)
    }

    method CalcMaxNextBlockSize() returns (size: nat)
      requires daThrottlingFactor >= 1
      ensures size == Throttled(maxBlockSize, daThrottlingFactor, |queue|)
    {
      hide Reduced;
      size := maxBlockSize;
      if |queue| >= DA_THROTTLE_THRESHOLD {
        var i := 0;
        while i < |queue|
          invariant 0 <= i <= |queue|
          invariant size == Throttled(maxBlockSize, daThrottlingFactor, i)
        {
          size := Reduced(size, daThrottlingFactor);
          i := i + 1;
        }
      }
    }

    method OnProposal(res: BatchResult)
      modifies this`queue, this`results, this`fates, this`outcomes
      ensures Value() == Proposed(old(Value()), res).(pending := pending)
    {
      outcomes := outcomes + [res];
      match res
      case Ok(_) =>
        results := results + [res];
      case Err(e) =>
        if e.NonceTooLow? {
          return;
        }
        fates := fates + Drops(|queue|);
        queue := [];
        results := results + [res];
    }

    method OnCmd(cmd: Cmd)
      requires daThrottlingFactor >= 1
      modifies this`queue, this`replies, this`accepted, this`fates
      ensures Value() == Commanded(old(Value()), cmd, maxBlockSize, daThrottlingFactor)
    {
      match cmd
      case Submit(request) =>
        HandleBatchSubmissionRequest(request);
      case ClearQueue =>
        fates := fates + Drops(|queue|);
        queue := [];
      case GetSuggestedMaxSize =>
        var max := CalcMaxNextBlockSize();
        replies := replies + [max];
    }

    method HandleBatchSubmissionRequest(request: Request)
      modifies this`queue, this`accepted
      ensures Value() == Handled(old(Value()), request)
    {
      var range, i := request.batch.BlocksRange(), 0;
      while i < |queue|
        invariant 0 <= i <= |queue|
        invariant forall j :: 0 <= j < i ==> !RangesOverlap(queue[j].batch.BlocksRange(), range)
      {
        if RangesOverlap(queue[i].batch.BlocksRange(), range) {
          return;
        }
        i := i + 1;
      }
      queue := queue + [request];
      accepted := accepted + [request];
    }

    /** Hands the first request of the queue to the poster. */
    method PostNext()
      requires pending.None? && queue != []
      modifies this
      ensures Value() == Popped(old(Value()))
    {
      var next := queue[0];
      queue := queue[1..];
      posted := posted + [next];
      pending := Some(next);
      fates := fates + [Posted];
    }

    /** One pass: the proposal in flight, the next request of the queue, then all commands. */
    method Turn(ready: Ready)
      requires daThrottlingFactor >= 1
      modifies this
      ensures Value() == Turned(old(Value()), ready, maxBlockSize, daThrottlingFactor)
    {
      hide Commanded;
      ghost var start := Value();
      if pending.Some? && ready.proposal.Some? {
        pending := None;
        OnProposal(ready.proposal.value);
      }
      ghost var settled := Value();
      assert settled == if start.pending.Some? && ready.proposal.Some? then Proposed(start, ready.proposal.value) else start;
      if pending.None? && queue != [] {
        PostNext();
      }
      var i := 0;
      assert ready.cmds[..0] == [];
      while i < |ready.cmds|
        invariant 0 <= i <= |ready.cmds|
        invariant Value() == AllCommanded(Popped(settled), ready.cmds[..i], maxBlockSize, daThrottlingFactor)
      {
        assert ready.cmds[..i + 1][..i] == ready.cmds[..i];
        OnCmd(ready.cmds[i]);
        i := i + 1;
      }
      assert ready.cmds[..i] == ready.cmds;
    }
  }

  // ---------- runs ----------

  function Run(turns: seq<Ready>, maxSize: nat, factor: nat): State
    requires factor >= 1
    decreases |turns|
  {
    if turns == [] then Start()
    else Turned(Run(turns[..|turns| - 1], maxSize, factor), turns[|turns| - 1], maxSize, factor)
  }

  ghost predicate Disjoint(queue: seq<Request>) {
    forall i, j :: 0 <= i < j < |queue| ==> !RangesOverlap(queue[i].batch.BlocksRange(), queue[j].batch.BlocksRange())
  }

  // The requests with a given fate, in order.
  function WithFate(requests: seq<Request>, fates: seq<Fate>, fate: Fate): seq<Request>
    requires |fates| <= |requests|
    decreases |fates|
  {
    if fates == [] then []
    else
      var n := |fates| - 1;
      WithFate(requests, fates[..n], fate) + if fates[n] == fate then [requests[n]] else []
  }

  // The outcomes that are reported: all but a nonce that is too low.
  function Reported(outcomes: seq<BatchResult>): seq<BatchResult> {
    if outcomes == [] then []
    else
      var n := |outcomes| - 1;
      Reported(outcomes[..n]) + if outcomes[n] == Err(NonceTooLow) then [] else [outcomes[n]]
  }

  // Whatever was accepted has met its fate or is still queued, in order.
  ghost predicate Queued(s: State) {
    && |s.accepted| == |s.fates| + |s.queue|
    && s.queue == s.accepted[|s.fates|..]
  }

  ghost predicate Settled(s: State) {
    && |s.fates| <= |s.accepted|
    && s.posted == WithFate(s.accepted, s.fates, Posted)
  }

  // At most the last request posted has no outcome yet.
  ghost predicate OneInFlight(s: State) {
    && s.results == Reported(s.outcomes)
    && match s.pending
       case None => |s.posted| == |s.outcomes|
       case Some(r) => |s.posted| == |s.outcomes| + 1 && s.posted[|s.outcomes|] == r
  }

  ghost predicate Inv(s: State) {
    Disjoint(s.queue) && Queued(s) && Settled(s) && OneInFlight(s)
  }

  lemma {:induction false} WithFateSnoc(requests: seq<Request>, fates: seq<Fate>, f: Fate, fate: Fate)
    requires |fates| < |requests|
    ensures WithFate(requests, fates + [f], fate) ==
            WithFate(requests, fates, fate) + if f == fate then [requests[|fates|]] else []
  {
    assert (fates + [f])[..|fates|] == fates;
  }

  lemma {:induction false} WithFateMore(requests: seq<Request>, r: Request, fates: seq<Fate>, fate: Fate)
    requires |fates| <= |requests|
    ensures WithFate(requests + [r], fates, fate) == WithFate(requests, fates, fate)
    decreases |fates|
  {
    if fates != [] {
      WithFateMore(requests, r, fates[..|fates| - 1], fate);
    }
  }

  lemma {:induction false} DropsPostNothing(requests: seq<Request>, fates: seq<Fate>, n: nat)
    requires |fates| + n <= |requests|
    ensures WithFate(requests, fates + Drops(n), Posted) == WithFate(requests, fates, Posted)
    decreases n
  {
    if n == 0 {
      assert fates + Drops(0) == fates;
    } else {
      DropsPostNothing(requests, fates, n - 1);
      assert fates + Drops(n) == fates + Drops(n - 1) + [Dropped];
      WithFateSnoc(requests, fates + Drops(n - 1), Dropped, Posted);
    }
  }

  lemma {:induction false} ClearedKeeps(s: State)
    requires Inv(s)
    ensures Inv(Cleared(s))
  {
    DropsPostNothing(s.accepted, s.fates, |s.queue|);
  }

  lemma {:induction false} HandledKeeps(s: State, request: Request)
    requires Inv(s)
    ensures Inv(Handled(s, request))
  {
    hide RangesOverlap, Batch.BlocksRange;
    WithFateMore(s.accepted, request, s.fates, Posted);
  }

  lemma {:induction false} ProposedKeeps(s: State, res: BatchResult)
    requires Inv(s) && s.pending.Some?
    ensures Inv(Proposed(s, res))
  {
    var done := s.(pending := None, outcomes := s.outcomes + [res]);
    assert done.outcomes[..|s.outcomes|] == s.outcomes;
    var reported := done.(results := Reported(done.outcomes));
    ClearedKeeps(reported);
  }

  lemma {:induction false} PoppedKeeps(s: State)
    requires Inv(s)
    ensures Inv(Popped(s))
  {
    if s.pending.None? && s.queue != [] {
      WithFateSnoc(s.accepted, s.fates, Posted, Posted);
    }
  }

  lemma {:induction false} CommandsKeep(s: State, cmds: seq<Cmd>, maxSize: nat, factor: nat)
    requires factor >= 1 && Inv(s)
    ensures Inv(AllCommanded(s, cmds, maxSize, factor))
    decreases |cmds|
  {
    hide Cleared, Handled;
    if cmds != [] {
      var before := AllCommanded(s, cmds[..|cmds| - 1], maxSize, factor);
      CommandsKeep(s, cmds[..|cmds| - 1], maxSize, factor);
      match cmds[|cmds| - 1]
      case Submit(request) => HandledKeeps(before, request);
      case ClearQueue => ClearedKeeps(before);
      case GetSuggestedMaxSize =>
    }
  }

  /**
   In every run the queued batches are pairwise disjoint, the queue is the end of what was
   accepted, the rest of which was posted in that order or dropped, and at most the last request
   posted is in flight.
   */
  lemma {:induction false} RunKeeps(turns: seq<Ready>, maxSize: nat, factor: nat)
    requires factor >= 1
    ensures Inv(Run(turns, maxSize, factor))
    decreases |turns|
  {
    hide Inv, Proposed, Popped, AllCommanded;
    if turns == [] {
      assert Inv(Start()) by { StartKeeps(); }
    } else {
      var s, ready := Run(turns[..|turns| - 1], maxSize, factor), turns[|turns| - 1];
      RunKeeps(turns[..|turns| - 1], maxSize, factor);
      if s.pending.Some? && ready.proposal.Some? {
        ProposedKeeps(s, ready.proposal.value);
        s := Proposed(s, ready.proposal.value);
      }
      PoppedKeeps(s);
      CommandsKeep(Popped(s), ready.cmds, maxSize, factor);
    }
  }

  lemma {:induction false} StartKeeps()
    ensures Inv(Start())
  {}

  // ---------- what follows ----------

  function InFlight(s: State): seq<Request> {
    match s.pending
    case None => []
    case Some(r) => [r]
  }

  function Finished(s: State): seq<Request> {
    s.posted[..Min(|s.outcomes|, |s.posted|)]
  }

  lemma {:induction false} GatherOne(all: seq<Request>, p: seq<Request>, d: seq<Request>, x: Request)
    requires multiset(all) == multiset(p) + multiset(d)
    ensures multiset(all + [x]) == multiset(p + [x]) + multiset(d)
    ensures multiset(all + [x]) == multiset(p) + multiset(d + [x])
  {}

  lemma {:induction false} FatesPartition(requests: seq<Request>, fates: seq<Fate>)
    requires |fates| <= |requests|
    ensures multiset(requests[..|fates|]) ==
            multiset(WithFate(requests, fates, Posted)) + multiset(WithFate(requests, fates, Dropped))
    decreases |fates|
  {
    hide WithFate;
    if fates == [] {
      NoFates(requests);
    } else {
      var n := |fates| - 1;
      var x, f := requests[n], fates[n];
      FatesPartition(requests, fates[..n]);
      assert fates == fates[..n] + [f] && requests[..n + 1] == requests[..n] + [x];
      WithFateSnoc(requests, fates[..n], f, Posted);
      WithFateSnoc(requests, fates[..n], f, Dropped);
      GatherOne(requests[..n], WithFate(requests, fates[..n], Posted), WithFate(requests, fates[..n], Dropped), x);
    }
  }

  lemma {:induction false} NoFates(requests: seq<Request>)
    ensures multiset(requests[..0]) == multiset(WithFate(requests, [], Posted)) + multiset(WithFate(requests, [], Dropped))
  {}

  /** Every request accepted is finished, in flight, queued or dropped, exactly once. */
  lemma {:induction false} Conservation(turns: seq<Ready>, maxSize: nat, factor: nat)
    requires factor >= 1
    ensures var s := Run(turns, maxSize, factor);
            && |s.fates| <= |s.accepted|
            && multiset(s.accepted) == multiset(Finished(s)) + multiset(InFlight(s)) + multiset(s.queue)
                                       + multiset(WithFate(s.accepted, s.fates, Dropped))
  {
    hide *;
    RunKeeps(turns, maxSize, factor);
    AcceptedParts(Run(turns, maxSize, factor));
  }

  lemma {:induction false} AcceptedParts(s: State)
    requires Inv(s)
    ensures |s.fates| <= |s.accepted|
    ensures multiset(s.accepted) == multiset(Finished(s)) + multiset(InFlight(s)) + multiset(s.queue)
                                    + multiset(WithFate(s.accepted, s.fates, Dropped))
  {
    hide Disjoint, WithFate, Finished, InFlight;
    FatesPartition(s.accepted, s.fates);
    PostedParts(s);
    SplitAt(s.accepted, |s.fates|);
  }

  lemma {:induction false} SplitAt(requests: seq<Request>, k: nat)
    requires k <= |requests|
    ensures multiset(requests) == multiset(requests[..k]) + multiset(requests[k..])
  {
    assert requests == requests[..k] + requests[k..];
  }

  lemma {:induction false} PostedParts(s: State)
    requires OneInFlight(s)
    ensures multiset(s.posted) == multiset(Finished(s)) + multiset(InFlight(s))
  {
    assert s.posted == Finished(s) + InFlight(s);
  }

  // Where the requests with a given fate stand among those accepted.
  ghost function Places(fates: seq<Fate>, fate: Fate): (r: seq<nat>) {
    if fates == [] then []
    else Places(fates[..|fates| - 1], fate) + if fates[|fates| - 1] == fate then [|fates| - 1] else []
  }

  ghost predicate InPlaces(requests: seq<Request>, places: seq<nat>, r: seq<Request>, end: nat) {
    && |r| == |places| && end <= |requests|
    && (forall i :: 0 <= i < |places| ==> places[i] < end && r[i] == requests[places[i]])
    && (forall i, j :: 0 <= i < j < |places| ==> places[i] < places[j])
  }

  lemma {:induction false} NextPlace(requests: seq<Request>, places: seq<nat>, r: seq<Request>, end: nat)
    requires end < |requests| && InPlaces(requests, places, r, end)
    ensures InPlaces(requests, places, r, end + 1)
    ensures InPlaces(requests, places + [end], r + [requests[end]], end + 1)
  {}

  lemma {:induction false} FatesInPlaces(requests: seq<Request>, fates: seq<Fate>, fate: Fate)
    requires |fates| <= |requests|
    ensures InPlaces(requests, Places(fates, fate), WithFate(requests, fates, fate), |fates|)
    decreases |fates|
  {
    if fates != [] {
      var front := fates[..|fates| - 1];
      FatesInPlaces(requests, front, fate);
      NextPlace(requests, Places(front, fate), WithFate(requests, front, fate), |front|);
      hide InPlaces;
      assert WithFate(requests, front, fate) + [] == WithFate(requests, front, fate);
      assert Places(front, fate) + [] == Places(front, fate);
    }
  }

  /** Requests are posted in the order in which they were accepted, and all before any still queued. */
  lemma {:induction false} PostedInOrder(turns: seq<Ready>, maxSize: nat, factor: nat) returns (places: seq<nat>, end: nat)
    requires factor >= 1
    ensures var s := Run(turns, maxSize, factor);
            InPlaces(s.accepted, places, s.posted, end) && s.queue == s.accepted[end..]
  {
    RunKeeps(turns, maxSize, factor);
    var s := Run(turns, maxSize, factor);
    places, end := Places(s.fates, Posted), |s.fates|;
    FatesInPlaces(s.accepted, s.fates, Posted);
  }

  /** Two queued batches share no block, when the blocks of each are within its range. */
  lemma {:induction false} QueuedShareNothing(turns: seq<Ready>, maxSize: nat, factor: nat, i: nat, j: nat, a: nat, b: nat)
    requires factor >= 1
    requires var q := Run(turns, maxSize, factor).queue;
             && i < j < |q| && a < |q[i].batch.blocks| && b < |q[j].batch.blocks|
             && WithinRange(q[i].batch) && WithinRange(q[j].batch)
    ensures var q := Run(turns, maxSize, factor).queue;
            q[i].batch.blocks[a].number != q[j].batch.blocks[b].number
  {
    RunKeeps(turns, maxSize, factor);
    var q := Run(turns, maxSize, factor).queue;
    assert !RangesOverlap(q[i].batch.BlocksRange(), q[j].batch.BlocksRange());
  }

  ghost predicate WithinRange(b: Batch) {
    forall i :: 0 <= i < |b.blocks| ==> b.BlocksRange().0 <= b.blocks[i].number <= b.BlocksRange().1
  }

  // ---------- the request in flight ----------

  /** No two requests that are in flight or queued overlap. */
  ghost predicate AllDisjoint(s: State) {
    Disjoint(InFlight(s) + s.queue)
  }

  predicate OverlapsInFlight(s: State, r: Request) {
    s.pending.Some? && RangesOverlap(s.pending.value.batch.BlocksRange(), r.batch.BlocksRange())
  }

  // A new request is refused, or clear of the one in flight.
  predicate ClearOfFlight(s: State, r: Request) {
    OverlapsQueue(s.queue, r.batch) || !OverlapsInFlight(s, r)
  }

  lemma {:induction false} DisjointSnoc(queue: seq<Request>, r: Request)
    ensures Disjoint(queue + [r]) <==> Disjoint(queue) && !OverlapsQueue(queue, r.batch)
  {
    hide RangesOverlap, Batch.BlocksRange;
    var all := queue + [r];
    assert all[|queue|] == r && forall i :: 0 <= i < |queue| ==> all[i] == queue[i];
  }

  /**
   Only queued batches are compared with a new one. The one in flight and the queue stay disjoint if
   and only if the new one is refused or does not overlap the one in flight.
   */
  lemma {:induction false} StaysDisjointIff(s: State, r: Request)
    requires AllDisjoint(s)
    ensures AllDisjoint(Handled(s, r)) <==> ClearOfFlight(s, r)
  {
    hide RangesOverlap, Batch.BlocksRange, Disjoint;
    var all := InFlight(s) + s.queue;
    assert InFlight(s) + (s.queue + [r]) == all + [r];
    DisjointSnoc(all, r);
    OverlapsEither(InFlight(s), s.queue, r.batch);
    assert OverlapsQueue(InFlight(s), r.batch) <==> OverlapsInFlight(s, r) by {
      if s.pending.Some? {
        assert InFlight(s)[0] == s.pending.value;
      }
    }
  }

  lemma {:induction false} OverlapsEither(a: seq<Request>, b: seq<Request>, batch: Batch)
    ensures OverlapsQueue(a + b, batch) <==> OverlapsQueue(a, batch) || OverlapsQueue(b, batch)
  {
    hide RangesOverlap, Batch.BlocksRange;
    assert forall i :: 0 <= i < |a| ==> (a + b)[i] == a[i];
    assert forall i :: 0 <= i < |b| ==> b[i] == (a + b)[|a| + i];
  }

  lemma {:induction false} DisjointEnd(a: seq<Request>, b: seq<Request>)
    requires Disjoint(a + b)
    ensures Disjoint(b)
  {
    hide RangesOverlap, Batch.BlocksRange;
    var all := a + b;
    forall i, j | 0 <= i < j < |b| ensures !RangesOverlap(b[i].batch.BlocksRange(), b[j].batch.BlocksRange()) {
      assert b[i] == all[|a| + i] && b[j] == all[|a| + j];
    }
  }

  lemma {:induction false} ProposingKeepsDisjoint(s: State, res: BatchResult)
    requires AllDisjoint(s)
    ensures AllDisjoint(Proposed(s, res))
  {
    DisjointEnd(InFlight(s), s.queue);
    hide Disjoint;
    assert [] + s.queue == s.queue;
    NoneDisjoint();
  }

  lemma {:induction false} NoneDisjoint()
    ensures Disjoint([]) && Disjoint([] + [])
  {}

  lemma {:induction false} PoppingKeepsDisjoint(s: State)
    requires AllDisjoint(s)
    ensures AllDisjoint(Popped(s))
  {
    hide Disjoint;
    if s.pending.None? && s.queue != [] {
      assert [s.queue[0]] + s.queue[1..] == [] + s.queue;
    }
  }

  lemma {:induction false} ClearingKeepsDisjoint(s: State)
    requires AllDisjoint(s)
    ensures AllDisjoint(Cleared(s))
  {}

  // Before and after each of the commands.
  ghost predicate DisjointThroughout(s: State, cmds: seq<Cmd>, maxSize: nat, factor: nat)
    requires factor >= 1
    decreases |cmds|
  {
    && (cmds != [] ==> DisjointThroughout(s, cmds[..|cmds| - 1], maxSize, factor))
    && AllDisjoint(AllCommanded(s, cmds, maxSize, factor))
  }

  // Each request that is accepted is clear of the one in flight at that point.
  ghost predicate AllClear(s: State, cmds: seq<Cmd>, maxSize: nat, factor: nat)
    requires factor >= 1
    decreases |cmds|
  {
    cmds != [] ==>
      var front, last := cmds[..|cmds| - 1], cmds[|cmds| - 1];
      && AllClear(s, front, maxSize, factor)
      && (last.Submit? ==> ClearOfFlight(AllCommanded(s, front, maxSize, factor), last.request))
  }

  lemma {:induction false} CommandsDisjointIff(s: State, cmds: seq<Cmd>, maxSize: nat, factor: nat)
    requires factor >= 1 && AllDisjoint(s)
    ensures DisjointThroughout(s, cmds, maxSize, factor) <==> AllClear(s, cmds, maxSize, factor)
    ensures DisjointThroughout(s, cmds, maxSize, factor) ==> AllDisjoint(AllCommanded(s, cmds, maxSize, factor))
    decreases |cmds|
  {
    hide AllDisjoint, ClearOfFlight, Handled, Cleared;
    if cmds != [] {
      var front, last := cmds[..|cmds| - 1], cmds[|cmds| - 1];
      var before := AllCommanded(s, front, maxSize, factor);
      CommandsDisjointIff(s, front, maxSize, factor);
      if AllDisjoint(before) {
        match last
        case Submit(r) => StaysDisjointIff(before, r);
        case ClearQueue => ClearingKeepsDisjoint(before);
        case GetSuggestedMaxSize => RepliesKeepDisjoint(before, last, maxSize, factor);
      }
    }
  }

  lemma {:induction false} RepliesKeepDisjoint(s: State, cmd: Cmd, maxSize: nat, factor: nat)
    requires factor >= 1 && cmd.GetSuggestedMaxSize?
    ensures AllDisjoint(Commanded(s, cmd, maxSize, factor)) <==> AllDisjoint(s)
  {}

  // The state in which the commands of a pass are handled.
  function BeforeCommands(s: State, ready: Ready): State {
    Popped(if s.pending.Some? && ready.proposal.Some? then Proposed(s, ready.proposal.value) else s)
  }

  ghost predicate RunDisjoint(turns: seq<Ready>, maxSize: nat, factor: nat)
    requires factor >= 1
    decreases |turns|
  {
    turns != [] ==>
      var front, ready := turns[..|turns| - 1], turns[|turns| - 1];
      && RunDisjoint(front, maxSize, factor)
      && DisjointThroughout(BeforeCommands(Run(front, maxSize, factor), ready), ready.cmds, maxSize, factor)
  }

  ghost predicate RunClear(turns: seq<Ready>, maxSize: nat, factor: nat)
    requires factor >= 1
    decreases |turns|
  {
    turns != [] ==>
      var front, ready := turns[..|turns| - 1], turns[|turns| - 1];
      && RunClear(front, maxSize, factor)
      && AllClear(BeforeCommands(Run(front, maxSize, factor), ready), ready.cmds, maxSize, factor)
  }

  /**
   Over a whole run, the request in flight and the queued ones are disjoint at every point if and only
   if no request was ever accepted that overlapped the one in flight.
   */
  lemma {:induction false} RunDisjointIff(turns: seq<Ready>, maxSize: nat, factor: nat)
    requires factor >= 1
    ensures RunDisjoint(turns, maxSize, factor) <==> RunClear(turns, maxSize, factor)
    ensures RunDisjoint(turns, maxSize, factor) ==> AllDisjoint(Run(turns, maxSize, factor))
    decreases |turns|
  {
    hide AllDisjoint, AllClear, DisjointThroughout, Popped, Proposed, AllCommanded;
    if turns == [] {
      StartDisjoint();
    } else {
      var front, ready := turns[..|turns| - 1], turns[|turns| - 1];
      RunDisjointIff(front, maxSize, factor);
      if RunDisjoint(front, maxSize, factor) {
        var s := Run(front, maxSize, factor);
        if s.pending.Some? && ready.proposal.Some? {
          ProposingKeepsDisjoint(s, ready.proposal.value);
          s := Proposed(s, ready.proposal.value);
        }
        PoppingKeepsDisjoint(s);
        CommandsDisjointIff(BeforeCommands(Run(front, maxSize, factor), ready), ready.cmds, maxSize, factor);
      }
    }
  }

  lemma {:induction false} StartDisjoint()
    ensures AllDisjoint(Start())
  {}

  /**
   Only queued batches are checked for overlap: while a request is in flight, the same request is
   accepted again.
   */
  lemma {:induction false} InFlightNotChecked(r: Request)
    ensures var s := Run([Ready(None, [Submit(r)]), Ready(None, [Submit(r)])], 0, 1);
            s.pending == Some(r) && s.queue == [r]
  {
    var turn := Ready(None, [Submit(r)]);
    assert [turn, turn][..1] == [turn] && [turn][..0] == [];
    OneSubmit(Start(), r);
    var first := Handled(Start(), r);
    assert Run([turn], 0, 1) == first;
    assert first.queue == [r];
    OneSubmit(Popped(first), r);
  }

  lemma {:induction false} OneSubmit(s: State, r: Request)
    ensures AllCommanded(s, [Submit(r)], 0, 1) == Handled(s, r)
  {
    assert [Submit(r)][..0] == [];
  }
}
