/**
 Downloading a range of L2 blocks together with the L1 headers they are anchored to. Blocks arrive
 in order, headers in any order; a header is asked for once and then kept. The main results are
 over every interleaving of arrivals.
 */
module SoftBlocks {
  import opened Wrappers
  import opened Batches
  import opened AnchoredBlocks
  import opened Sorting

  /** An L2 block as downloaded; without an anchor transaction it has no anchor id. */
  datatype L2Block = L2Block(block: Block, anchorId: Option<nat>)

  datatype Error = Error(code: nat)

  datatype AnchorState = Pending(blocks: seq<L2Block>) | Available(header: Header)

  /** What the two execution clients answer: the blocks of the range, and any L1 header. */
  datatype World = World(blocks: seq<Result<L2Block, Error>>, header: nat -> Result<Header, Error>) {

    // A header has the number it was asked for by, and block `i` of the range the number `first + i`.
    ghost predicate Honest(first: nat) {
      && (forall id :: header(id).Ok? ==> header(id).value.number == id)
      && (forall i :: 0 <= i < |blocks| && blocks[i].Ok? ==> HasNumber(blocks[i].value, first + i))
    }
  }

  predicate HasNumber(b: L2Block, number: nat) {
    b.block.number == number
  }

  /** What is ready on one pass of the loop: the fetch of an anchor, the next block. */
  datatype Ready = Ready(anchor: Option<nat>, block: bool)

  /** The download so far. `requested` lists the anchors asked for, `anchorFuts` those not answered. */
  datatype Task = Task(
    count: nat, next: nat, requested: seq<nat>, anchorFuts: multiset<nat>,
    cache: map<nat, AnchorState>, out: seq<AnchoredBlock>)

  datatype Outcome = Running(task: Task) | Finished(result: Result<seq<AnchoredBlock>, Error>)

  function Anchored(blocks: seq<L2Block>, anchor: Header): (r: seq<AnchoredBlock>)
    ensures |r| == |blocks|
  {
    seq(|blocks|, i requires 0 <= i < |blocks| => AnchoredBlock(blocks[i].block, anchor))
  }

  function Start(count: nat): Task {
    Task(count, 0, [], multiset{}, map[], [])
  }

  // The blocks that wait for an anchor get it.
  function InsertAnchor(t: Task, anchor: Header): Task {
    if anchor.number in t.cache && t.cache[anchor.number].Pending? then
      t.(out := t.out + Anchored(t.cache[anchor.number].blocks, anchor),
         cache := t.cache[anchor.number := Available(anchor)])
    else t
  }

  function TakeAnchor(t: Task, w: World, id: nat): Outcome {
    if t.anchorFuts[id] == 0 then Running(t)
    else
      match w.header(id)
      case Err(e) => Finished(Err(e))
      case Ok(h) => Running(InsertAnchor(t.(anchorFuts := t.anchorFuts - multiset{id}), h))
  }

  // A block takes its anchor from the cache, or waits for it.
  function PlaceBlock(t: Task, b: L2Block, id: nat): Task {
    if id !in t.cache then
      t.(requested := t.requested + [id], anchorFuts := t.anchorFuts + multiset{id}, cache := t.cache[id := Pending([b])])
    else
      match t.cache[id]
      case Available(h) => t.(out := t.out + [AnchoredBlock(b.block, h)])
      case Pending(blocks) => t.(cache := t.cache[id := Pending(blocks + [b])])
  }

  function TakeBlock(t: Task, w: World): Outcome {
    if t.next >= |w.blocks| then Running(t)
    else
      match w.blocks[t.next]
      case Err(e) => Finished(Err(e))
      case Ok(b) =>
        match b.anchorId
        case None => Finished(Ok(t.out))
        case Some(id) => Running(PlaceBlock(t.(next := t.next + 1), b, id))
  }

  function Checked(o: Outcome): Outcome {
    if o.Running? && |o.task.out| == o.task.count then Finished(Ok(o.task.out)) else o
  }

  // One pass of the loop.
  function Turned(t: Task, w: World, ready: Ready): Outcome {
    var a := if ready.anchor.Some? then TakeAnchor(t, w, ready.anchor.value) else Running(t);
    if a.Finished? then a else Checked(if ready.block then TakeBlock(a.task, w) else a)
  }

  class BlockDownloadTask {
    const count: nat
    const world: World
    var next: nat
    var requested: seq<nat>
    var anchorFuts: multiset<nat>
    var cache: map<nat, AnchorState>
    var out: seq<AnchoredBlock>

    constructor (world: World)
      ensures Value() == Start(|world.blocks|) && this.world == world
    {
      count, this.world := |world.blocks|, world;
      next, requested, anchorFuts, cache, out := 0, [], multiset{}, map[], [];
    }

    function Value(): Task
      reads this
    {
      Task(count, next, requested, anchorFuts, cache, out)
    }

    method SpawnAnchorBlockFetch(id: nat)
      modifies this`requested, this`anchorFuts
      ensures requested == old(requested) + [id] && anchorFuts == old(anchorFuts) + multiset{id}
    {
      requested, anchorFuts := requested + [id], anchorFuts + multiset{id};
    }

    /** Caches the anchor and gives it to the blocks that wait for it. */
    method OnAnchor(anchor: Header)
      modifies this`cache, this`out
      ensures Value() == InsertAnchor(old(Value()), anchor)
    {
      if anchor.number !in cache || cache[anchor.number].Available? {
        return;
      }
      var blocks := cache[anchor.number].blocks;
      cache := cache[anchor.number := Available(anchor)];
      var i := 0;
      while i < |blocks|
        invariant 0 <= i <= |blocks|
        invariant cache == old(cache)[anchor.number := Available(anchor)]
        invariant out == old(out) + Anchored(blocks, anchor)[..i]
      {
        out := out + [AnchoredBlock(blocks[i].block, anchor)];
        i := i + 1;
      }
      assert Anchored(blocks, anchor)[..i] == Anchored(blocks, anchor);
    }

    /** Gives a new block its anchor, or makes it wait. */
    method OnBlock(block: L2Block, id: nat)
      modifies this`requested, this`anchorFuts, this`cache, this`out
      ensures Value() == PlaceBlock(old(Value()), block, id)
    {
      if id !in cache {
        SpawnAnchorBlockFetch(id);
        cache := cache[id := Pending([block])];
        return;
      }
      match cache[id]
      case Available(h) => out := out + [AnchoredBlock(block.block, h)];
      case Pending(blocks) => cache := cache[id := Pending(blocks + [block])];
    }

    /** One pass: an anchor that is ready, then a block that is ready, then the check for completion. */
    method Turn(ready: Ready) returns (result: Option<Result<seq<AnchoredBlock>, Error>>, progress: bool)
      modifies this
      ensures match Turned(old(Value()), world, ready)
              case Running(t) => result.None? && Value() == t
              case Finished(r) => result == Some(r)
      ensures result.None? && !progress ==> Value() == old(Value())
    {
      hide InsertAnchor, PlaceBlock;
      progress := false;
      ghost var start := Value();
      if ready.anchor.Some? && anchorFuts[ready.anchor.value] > 0 {
        var fetched := world.header(ready.anchor.value);
        if fetched.Err? {
          return Some(Err(fetched.error)), progress;
        }
        progress := true;
        anchorFuts := anchorFuts - multiset{ready.anchor.value};
        OnAnchor(fetched.value);
      }
      ghost var middle := Value();
      assert ready.anchor.Some? ==> TakeAnchor(start, world, ready.anchor.value) == Running(middle);
      if ready.block && next < |world.blocks| {
        var fetched := world.blocks[next];
        if fetched.Err? {
          return Some(Err(fetched.error)), progress;
        }
        progress := true;
        if fetched.value.anchorId.None? {
          return Some(Ok(out)), progress;
        }
        next := next + 1;
        OnBlock(fetched.value, fetched.value.anchorId.value);
      }
      if |out| == count {
        return Some(Ok(out)), progress;
      }
      result := None;
    }

    /** Runs the loop on what becomes ready, until it finishes or a pass makes no progress. */
    method Poll(ready: seq<Ready>) returns (result: Option<Result<seq<AnchoredBlock>, Error>>, used: nat)
      modifies this
      ensures used <= |ready|
      ensures match RunFrom(old(Value()), world, ready[..used])
              case Running(t) => result.None? && Value() == t
              case Finished(r) => result == Some(r)
    {
      used := 0;
      while used < |ready|
        invariant 0 <= used <= |ready|
        invariant RunFrom(old(Value()), world, ready[..used]) == Running(Value())
      {
        var progress;
        result, progress := Turn(ready[used]);
        used := used + 1;
        assert ready[..used][..used - 1] == ready[..used - 1];
        if result.Some? || !progress {
          return;
        }
      }
      result := None;
    }
  }

  // ---------- runs ----------

  function RunFrom(start: Task, w: World, ready: seq<Ready>): Outcome {
    if ready == [] then Running(start)
    else
      match RunFrom(start, w, ready[..|ready| - 1])
      case Running(t) => Turned(t, w, ready[|ready| - 1])
      case Finished(r) => Finished(r)
  }

  // Any run of the download of this range.
  function Download(w: World, ready: seq<Ready>): Outcome {
    RunFrom(Start(|w.blocks|), w, ready)
  }

  // What was downloaded, recovered from the output: the block, and the number of its anchor.
  function Unanchored(out: seq<AnchoredBlock>): (r: seq<L2Block>)
    ensures |r| == |out|
  {
    seq(|out|, i requires 0 <= i < |out| => L2Block(out[i].block, Some(out[i].anchor.number)))
  }

  ghost predicate AllAnchored(w: World, n: nat) {
    n <= |w.blocks| && forall i :: 0 <= i < n ==> w.blocks[i].Ok? && w.blocks[i].value.anchorId.Some?
  }

  function Received(w: World, n: nat): (r: seq<L2Block>)
    requires AllAnchored(w, n)
    ensures |r| == n
  {
    seq(n, i requires 0 <= i < n => w.blocks[i].value)
  }

  predicate IsPending(cache: map<nat, AnchorState>, id: nat) {
    id in cache && cache[id].Pending?
  }

  function PendingCount(cache: map<nat, AnchorState>, b: L2Block): nat {
    if b.anchorId.Some? && IsPending(cache, b.anchorId.value) then multiset(cache[b.anchorId.value].blocks)[b] else 0
  }

  // Every block received is in the output or waits for its anchor, exactly once.
  ghost predicate Accounted(received: seq<L2Block>, out: seq<AnchoredBlock>, cache: map<nat, AnchorState>) {
    forall b :: multiset(received)[b] == multiset(Unanchored(out))[b] + PendingCount(cache, b)
  }

  // Only blocks of an anchor wait for it, and a header kept is the one that was asked for.
  ghost predicate StateValid(id: nat, state: AnchorState, w: World) {
    match state
    case Pending(blocks) => blocks != [] && AllOf(blocks, id)
    case Available(h) => w.header(id) == Ok(h) && h.number == id
  }

  ghost predicate CacheValid(cache: map<nat, AnchorState>, w: World) {
    forall id :: id in cache ==> StateValid(id, cache[id], w)
  }

  predicate AllOf(blocks: seq<L2Block>, id: nat) {
    forall i :: 0 <= i < |blocks| ==> blocks[i].anchorId == Some(id)
  }

  // Each anchor of the cache was asked for exactly once, and is in flight exactly while pending.
  ghost predicate FetchedOnce(t: Task) {
    forall id :: multiset(t.requested)[id] == (if id in t.cache then 1 else 0) &&
                 t.anchorFuts[id] == (if IsPending(t.cache, id) then 1 else 0)
  }

  ghost predicate HeadersKept(out: seq<AnchoredBlock>, w: World) {
    forall i :: 0 <= i < |out| ==> w.header(out[i].anchor.number) == Ok(out[i].anchor)
  }

  ghost predicate Inv(t: Task, w: World) {
    && AllAnchored(w, t.next) && t.count == |w.blocks|
    && Accounted(Received(w, t.next), t.out, t.cache)
    && CacheValid(t.cache, w) && FetchedOnce(t) && HeadersKept(t.out, w)
  }

  lemma {:induction false} UnanchoredConcat(a: seq<AnchoredBlock>, b: seq<AnchoredBlock>)
    ensures multiset(Unanchored(a + b)) == multiset(Unanchored(a)) + multiset(Unanchored(b))
  {
    assert Unanchored(a + b) == Unanchored(a) + Unanchored(b);
  }

  lemma {:induction false} DeliveredAccounted(
    received: seq<L2Block>, out: seq<AnchoredBlock>, cache: map<nat, AnchorState>, h: Header)
    requires Accounted(received, out, cache)
    requires IsPending(cache, h.number) && AllOf(cache[h.number].blocks, h.number)
    ensures Accounted(received, out + Anchored(cache[h.number].blocks, h), cache[h.number := Available(h)])
  {
    var blocks := cache[h.number].blocks;
    UnanchoredConcat(out, Anchored(blocks, h));
    assert Unanchored(Anchored(blocks, h)) == blocks;
    forall b ensures multiset(blocks)[b] + PendingCount(cache[h.number := Available(h)], b) == PendingCount(cache, b) {
      if b in blocks {
        assert b.anchorId == Some(h.number);
      }
    }
  }

  lemma {:induction false} WaitingAccounted(
    received: seq<L2Block>, out: seq<AnchoredBlock>, cache: map<nat, AnchorState>, b: L2Block, id: nat, blocks: seq<L2Block>)
    requires Accounted(received, out, cache) && b.anchorId == Some(id)
    requires if id in cache then cache[id] == Pending(blocks) else blocks == []
    ensures Accounted(received + [b], out, cache[id := Pending(blocks + [b])])
  {
    hide Unanchored;
  }

  lemma {:induction false} PlacedAccounted(
    received: seq<L2Block>, out: seq<AnchoredBlock>, cache: map<nat, AnchorState>, b: L2Block, h: Header)
    requires Accounted(received, out, cache) && b.anchorId == Some(h.number)
    ensures Accounted(received + [b], out + [AnchoredBlock(b.block, h)], cache)
  {
    var x := [AnchoredBlock(b.block, h)];
    UnanchoredConcat(out, x);
    assert Unanchored(x) == [b];
    hide Unanchored, PendingCount;
  }

  lemma {:induction false} TakeAnchorKeeps(t: Task, w: World, id: nat, first: nat)
    requires w.Honest(first) && Inv(t, w) && TakeAnchor(t, w, id).Running?
    ensures Inv(TakeAnchor(t, w, id).task, w)
  {
    if t.anchorFuts[id] > 0 {
      var h := w.header(id).value;
      assert h.number == id && IsPending(t.cache, id) && StateValid(id, t.cache[id], w);
      DeliveredAccounted(Received(w, t.next), t.out, t.cache, h);
      hide Accounted, Received, AllAnchored;
    }
  }

  lemma {:induction false} ReceivedSnoc(w: World, n: nat)
    requires n < |w.blocks| && AllAnchored(w, n) && w.blocks[n].Ok? && w.blocks[n].value.anchorId.Some?
    ensures AllAnchored(w, n + 1) && Received(w, n + 1) == Received(w, n) + [w.blocks[n].value]
  {}

  lemma {:induction false} PlaceBlockFetches(t: Task, b: L2Block, id: nat)
    requires FetchedOnce(t)
    ensures FetchedOnce(PlaceBlock(t, b, id))
  {}

  // The parts of the invariant that do not depend on how many blocks have arrived.
  lemma {:induction false} PlaceBlockKeeps(t: Task, w: World, received: seq<L2Block>, b: L2Block, id: nat)
    requires Accounted(received, t.out, t.cache) && CacheValid(t.cache, w) && HeadersKept(t.out, w)
    requires b.anchorId == Some(id)
    ensures var r := PlaceBlock(t, b, id);
            && Accounted(received + [b], r.out, r.cache) && CacheValid(r.cache, w)
            && HeadersKept(r.out, w) && r.next == t.next && r.count == t.count
  {
    hide Accounted;
    if id in t.cache {
      assert StateValid(id, t.cache[id], w);
      match t.cache[id]
      case Available(h) => PlacedAccounted(received, t.out, t.cache, b, h);
      case Pending(blocks) => WaitingAccounted(received, t.out, t.cache, b, id, blocks);
    } else {
      WaitingAccounted(received, t.out, t.cache, b, id, []);
      assert [] + [b] == [b];
    }
  }

  lemma {:induction false} TakeBlockKeeps(t: Task, w: World)
    requires Inv(t, w) && TakeBlock(t, w).Running?
    ensures Inv(TakeBlock(t, w).task, w)
  {
    hide Accounted, Received, AllAnchored, PlaceBlock;
    if t.next < |w.blocks| {
      var b := w.blocks[t.next].value;
      ReceivedSnoc(w, t.next);
      PlaceBlockFetches(t.(next := t.next + 1), b, b.anchorId.value);
      PlaceBlockKeeps(t.(next := t.next + 1), w, Received(w, t.next), b, b.anchorId.value);
    }
  }

  lemma {:induction false} StartKeeps(w: World)
    ensures Inv(Start(|w.blocks|), w)
  {}

  lemma {:induction false} PendingIsMissing(t: Task, w: World, id: nat)
    requires Inv(t, w) && IsPending(t.cache, id)
    ensures multiset(Received(w, t.next)) != multiset(Unanchored(t.out))
  {
    assert StateValid(id, t.cache[id], w);
    var b := t.cache[id].blocks[0];
    assert b.anchorId == Some(id) && b in multiset(t.cache[id].blocks);
    assert PendingCount(t.cache, b) > 0;
  }

  /** The output is complete if and only if all blocks have arrived and no anchor is in flight. */
  lemma {:induction false} CompleteIff(t: Task, w: World)
    requires Inv(t, w)
    ensures |t.out| == t.count <==> t.next == t.count && t.anchorFuts == multiset{}
    ensures |t.out| == t.count ==> multiset(Unanchored(t.out)) == multiset(Received(w, t.next))
  {
    var received, out := multiset(Received(w, t.next)), multiset(Unanchored(t.out));
    assert |received| == t.next && |out| == |t.out|;
    var missing := received - out;
    assert out <= received && received == out + missing;
    hide Unanchored, Received, AllAnchored;
    if |t.out| == t.count {
      assert |missing| == 0;
      assert received == out;
      forall id ensures t.anchorFuts[id] == 0 {
        if IsPending(t.cache, id) {
          PendingIsMissing(t, w, id);
          assert false;
        }
      }
    }
    if t.anchorFuts == multiset{} {
      forall b ensures PendingCount(t.cache, b) == 0 {
        assert b.anchorId.Some? ==> t.anchorFuts[b.anchorId.value] == 0;
      }
      assert received == out;
    }
  }

  // ---------- main results ----------

  lemma {:induction false} RunKeeps(w: World, ready: seq<Ready>, first: nat)
    requires w.Honest(first) && Download(w, ready).Running?
    ensures Inv(Download(w, ready).task, w)
    decreases |ready|
  {
    hide Inv, TakeAnchor, TakeBlock;
    if ready == [] {
      StartKeeps(w);
    } else {
      var front, last := ready[..|ready| - 1], ready[|ready| - 1];
      RunKeeps(w, front, first);
      var t := Download(w, front).task;
      if last.anchor.Some? {
        TakeAnchorKeeps(t, w, last.anchor.value, first);
        t := TakeAnchor(t, w, last.anchor.value).task;
      }
      if last.block {
        TakeBlockKeeps(t, w);
      }
    }
  }

  /** A download that has not finished after a pass still waits for a block or for an anchor. */
  lemma {:induction false} NeverStuck(w: World, ready: seq<Ready>, first: nat)
    requires w.Honest(first) && ready != [] && Download(w, ready).Running?
    ensures var t := Download(w, ready).task;
            t.next < |w.blocks| || exists id :: t.anchorFuts[id] > 0
  {
    RunKeeps(w, ready, first);
    var t := Download(w, ready).task;
    CompleteIff(t, w);
    hide Inv;
    assert |t.out| != t.count;
    if forall id :: t.anchorFuts[id] == 0 {
      assert t.anchorFuts == multiset{};
    }
  }

  // The download broke off at block `k`, which has no anchor transaction, with part of those before it.
  ghost predicate BrokenOff(w: World, out: seq<AnchoredBlock>, k: nat) {
    && k < |w.blocks| && AllAnchored(w, k) && w.blocks[k].Ok? && w.blocks[k].value.anchorId.None?
    && multiset(Unanchored(out)) <= multiset(Received(w, k))
  }

  ghost predicate Complete(w: World, out: seq<AnchoredBlock>) {
    AllAnchored(w, |w.blocks|) && multiset(Unanchored(out)) == multiset(Received(w, |w.blocks|))
  }

  lemma {:induction false} TurnFinishes(t: Task, w: World, block: bool) returns (k: nat)
    requires Inv(t, w)
    requires var o := Checked(if block then TakeBlock(t, w) else Running(t)); o.Finished? && o.result.Ok?
    ensures var out := Checked(if block then TakeBlock(t, w) else Running(t)).result.value;
            HeadersKept(out, w) && (Complete(w, out) || BrokenOff(w, out, k))
  {
    k := t.next;
    if block && TakeBlock(t, w).Finished? {
      assert multiset(Unanchored(t.out)) <= multiset(Received(w, k));
    } else if block {
      TakeBlockKeeps(t, w);
      CompleteIff(TakeBlock(t, w).task, w);
    } else {
      CompleteIff(t, w);
    }
  }

  /**
   A download that succeeds holds every block of the range once, each with the header of its own
   anchor, unless it met a block without an anchor transaction; then it holds part of the blocks
   before that one.
   */
  lemma {:induction false} FinishedDownload(w: World, ready: seq<Ready>, first: nat) returns (k: nat)
    requires w.Honest(first) && Download(w, ready).Finished? && Download(w, ready).result.Ok?
    ensures var out := Download(w, ready).result.value;
            HeadersKept(out, w) && (Complete(w, out) || BrokenOff(w, out, k))
    decreases |ready|
  {
    hide Inv, TakeAnchor, TakeBlock, HeadersKept, Complete, BrokenOff;
    var front, last := ready[..|ready| - 1], ready[|ready| - 1];
    if Download(w, front).Finished? {
      k := FinishedDownload(w, front, first);
    } else {
      RunKeeps(w, front, first);
      var t := Download(w, front).task;
      if last.anchor.Some? {
        var o := TakeAnchor(t, w, last.anchor.value);
        FailedAnchor(t, w, last.anchor.value);
        TakeAnchorKeeps(t, w, last.anchor.value, first);
        k := TurnFinishes(o.task, w, last.block);
      } else {
        k := TurnFinishes(t, w, last.block);
      }
    }
  }

  lemma {:induction false} FailedAnchor(t: Task, w: World, id: nat)
    ensures TakeAnchor(t, w, id).Finished? ==> TakeAnchor(t, w, id).result.Err?
  {}

  // ---------- the range comes back ----------

  function L2Number(b: L2Block): nat { b.block.number }

  lemma {:induction false} UnanchoredInserted(s: seq<AnchoredBlock>, x: AnchoredBlock)
    ensures Unanchored(InsertBy(s, x, NumberOf)) ==
            InsertBy(Unanchored(s), L2Block(x.block, Some(x.anchor.number)), L2Number)
    decreases |s|
  {
    if s != [] && !(NumberOf(s[|s| - 1]) <= NumberOf(x)) {
      UnanchoredInserted(s[..|s| - 1], x);
      assert Unanchored(s)[..|s| - 1] == Unanchored(s[..|s| - 1]);
    }
  }

  lemma {:induction false} UnanchoredSorted(s: seq<AnchoredBlock>)
    ensures Unanchored(SortBy(s, NumberOf)) == SortBy(Unanchored(s), L2Number)
    decreases |s|
  {
    if s != [] {
      UnanchoredSorted(s[..|s| - 1]);
      UnanchoredInserted(SortBy(s[..|s| - 1], NumberOf), s[|s| - 1]);
      assert Unanchored(s)[..|s| - 1] == Unanchored(s[..|s| - 1]);
    }
  }

  lemma {:induction false} HeadersSorted(out: seq<AnchoredBlock>, w: World)
    requires HeadersKept(out, w)
    ensures HeadersKept(SortBy(out, NumberOf), w)
  {
    SortLaws(out, NumberOf);
    var sorted := SortBy(out, NumberOf);
    forall i | 0 <= i < |sorted| ensures w.header(sorted[i].anchor.number) == Ok(sorted[i].anchor) {
      assert sorted[i] in multiset(out);
    }
  }

  /**
   In whatever order things arrive: when every block of the range has an anchor transaction and
   the download succeeds, sorting the output gives the requested blocks in order without a gap,
   each with its own anchor.
   */
  lemma {:induction false} DownloadReturnsRange(w: World, ready: seq<Ready>, first: nat)
    requires w.Honest(first) && AllAnchored(w, |w.blocks|)
    requires Download(w, ready).Finished? && Download(w, ready).result.Ok?
    ensures var r := SortBy(Download(w, ready).result.value, NumberOf);
            && Unanchored(r) == Received(w, |w.blocks|) && HeadersKept(r, w)
            && ConsecutiveAnchored(r) && (r != [] ==> r[0].block.number == first && GapFrom(r, first, 0).None?)
  {
    var out := Download(w, ready).result.value;
    var k := FinishedDownload(w, ready, first);
    NotBrokenOff(w, out, k);
    hide Complete, HeadersKept, BrokenOff, Download, AllAnchored, ConsecutiveAnchored;
    SortedRange(w, out, first);
    HeadersSorted(out, w);
    var r := SortBy(out, NumberOf);
    NumbersInLine(w, r, first);
  }

  lemma {:induction false} NotBrokenOff(w: World, out: seq<AnchoredBlock>, k: nat)
    ensures AllAnchored(w, |w.blocks|) ==> !BrokenOff(w, out, k)
  {}

  lemma {:induction false} SortedRange(w: World, out: seq<AnchoredBlock>, first: nat)
    requires w.Honest(first) && Complete(w, out)
    ensures Unanchored(SortBy(out, NumberOf)) == Received(w, |w.blocks|)
  {
    hide Unanchored;
    var received := Received(w, |w.blocks|);
    UnanchoredSorted(out);
    forall i | 0 <= i < |received| ensures L2Number(received[i]) == first + i {
      assert HasNumber(w.blocks[i].value, first + i);
    }
    SortRestores(Unanchored(out), received, L2Number);
  }

  lemma {:induction false} NumbersInLine(w: World, r: seq<AnchoredBlock>, first: nat)
    requires w.Honest(first) && AllAnchored(w, |w.blocks|) && Unanchored(r) == Received(w, |w.blocks|)
    ensures ConsecutiveAnchored(r) && (r != [] ==> r[0].block.number == first && GapFrom(r, first, 0).None?)
  {
    forall i | 0 <= i < |r| ensures r[i].block.number == first + i {
      assert r[i].block == Unanchored(r)[i].block;
      assert HasNumber(w.blocks[i].value, first + i);
    }
    GapFromIff(r, first, 0);
  }

  // ---------- how a download ends ----------

  // Something that the download waits for is ready: an anchor in flight, or the next block.
  predicate Delivers(t: Task, w: World, ready: Ready) {
    || (ready.anchor.Some? && t.anchorFuts[ready.anchor.value] > 0)
    || (ready.block && t.next < |w.blocks|)
  }

  ghost predicate AllDeliver(w: World, ready: seq<Ready>)
    decreases |ready|
  {
    ready != [] ==>
      var front := ready[..|ready| - 1];
      && AllDeliver(w, front)
      && (Download(w, front).Running? ==> Delivers(Download(w, front).task, w, ready[|ready| - 1]))
  }

  // How many blocks and anchors have arrived.
  function Arrived(t: Task): int {
    t.next + |t.requested| - |t.anchorFuts|
  }

  ghost predicate Bounded(t: Task, w: World) {
    |t.requested| <= t.next <= |w.blocks|
  }

  lemma {:induction false} AnchorArrives(t: Task, w: World, id: nat)
    requires Bounded(t, w) && TakeAnchor(t, w, id).Running?
    ensures var r := TakeAnchor(t, w, id).task;
            && Bounded(r, w) && r.next == t.next
            && Arrived(r) == Arrived(t) + if t.anchorFuts[id] > 0 then 1 else 0
  {
    hide Anchored;
  }

  lemma {:induction false} BlockArrives(t: Task, w: World)
    requires Bounded(t, w) && TakeBlock(t, w).Running?
    ensures var r := TakeBlock(t, w).task;
            Bounded(r, w) && Arrived(r) == Arrived(t) + if t.next < |w.blocks| then 1 else 0
  {}

  lemma {:induction false} PassArrives(t: Task, w: World, ready: Ready)
    requires Bounded(t, w) && Turned(t, w, ready).Running?
    ensures var r := Turned(t, w, ready).task;
            Bounded(r, w) && Arrived(r) >= Arrived(t) + if Delivers(t, w, ready) then 1 else 0
  {
    hide TakeAnchor, TakeBlock, Bounded, Arrived;
    var a := t;
    if ready.anchor.Some? {
      AnchorArrives(t, w, ready.anchor.value);
      a := TakeAnchor(t, w, ready.anchor.value).task;
    }
    if ready.block {
      BlockArrives(a, w);
    }
  }

  lemma {:induction false} RunArrives(w: World, ready: seq<Ready>)
    requires AllDeliver(w, ready) && Download(w, ready).Running?
    ensures Bounded(Download(w, ready).task, w) && Arrived(Download(w, ready).task) >= |ready|
    decreases |ready|
  {
    hide Turned, Delivers, Arrived, Bounded;
    if ready == [] {
      NothingArrived(w);
    } else {
      var front := ready[..|ready| - 1];
      RunArrives(w, front);
      PassArrives(Download(w, front).task, w, ready[|ready| - 1]);
    }
  }

  lemma {:induction false} NothingArrived(w: World)
    ensures Bounded(Start(|w.blocks|), w) && Arrived(Start(|w.blocks|)) == 0
  {}

  /**
   A download ends: as long as every pass delivers something it waits for, it has finished after at most two passes for
   each block, one for the block and one for its anchor.
   */
  lemma {:induction false} DownloadEnds(w: World, ready: seq<Ready>)
    requires AllDeliver(w, ready) && |ready| > 2 * |w.blocks|
    ensures Download(w, ready).Finished?
  {
    hide Download;
    if Download(w, ready).Running? {
      RunArrives(w, ready);
    }
  }

  // One of the answers is this error.
  ghost predicate Answers(w: World, e: Error) {
    (exists i :: 0 <= i < |w.blocks| && w.blocks[i] == Err(e)) || (exists id :: w.header(id) == Err(e))
  }

  /** A download fails only with an error that one of the calls returned. */
  lemma {:induction false} FailedDownload(w: World, ready: seq<Ready>)
    requires Download(w, ready).Finished? && Download(w, ready).result.Err?
    ensures Answers(w, Download(w, ready).result.error)
    decreases |ready|
  {
    hide InsertAnchor, PlaceBlock, Answers;
    var front, last := ready[..|ready| - 1], ready[|ready| - 1];
    if Download(w, front).Finished? {
      FailedDownload(w, front);
    } else {
      var t := Download(w, front).task;
      if last.anchor.Some? {
        AnchorError(t, w, last.anchor.value);
        if TakeAnchor(t, w, last.anchor.value).Running? {
          BlockError(TakeAnchor(t, w, last.anchor.value).task, w);
        }
      } else {
        BlockError(t, w);
      }
    }
  }

  lemma {:induction false} AnchorError(t: Task, w: World, id: nat)
    ensures var o := TakeAnchor(t, w, id); o.Finished? && o.result.Err? ==> Answers(w, o.result.error)
  {}

  lemma {:induction false} BlockError(t: Task, w: World)
    ensures var o := TakeBlock(t, w); o.Finished? && o.result.Err? ==> Answers(w, o.result.error)
  {}
}
