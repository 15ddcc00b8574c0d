/**
 Who may build blocks and who may propose them at each slot. A node learns which epochs are its
 own from the whitelist contract; its status follows. The main results are over whole runs of
 syncs: exactly when a node's claims stay its own, that no two such nodes sequence, or propose, at
 the same slot, and that a node that has heard an answer about an epoch has exactly the documented
 status throughout it.
 */
module Handover {
  import opened Integers
  import opened Wrappers
  import opened Batches
  import opened Lookahead

  datatype DriverStatus = Inactive | HandoverWait | SequencingOnly | InclusionOnly | Active {

    predicate CanPropose() {
      InclusionOnly? || Active?
    }

    predicate CanSequence() {
      SequencingOnly? || Active?
    }
  }

  /** What the contract answered about the current and the next epoch; None if the call failed. */
  datatype Answers = Answers(current: Option<Address>, next: Option<Address>)

  datatype Config = Config(
    me: Address,
    handoverWindowSlots: nat,
    handoverSkipSlots: nat,
    l1Genesis: nat,
    l1BlockTime: nat,
    l2BlockTime: nat)
  {
    predicate Valid() {
      0 < l2BlockTime <= l1BlockTime
    }

    function SlotOf(timestamp: nat): nat
      requires Valid()
    {
      SaturatingSub(timestamp, l1Genesis) / l1BlockTime
    }

    function TimestampOf(slot: nat): nat {
      l1Genesis + slot * l1BlockTime
    }
  }

  /** A slot is the time from its own timestamp to that of the next one. */
  lemma {:induction false} SlotIff(cfg: Config, timestamp: nat, slot: nat)
    requires cfg.Valid() && cfg.l1Genesis <= timestamp
    ensures cfg.SlotOf(timestamp) == slot <==> cfg.TimestampOf(slot) <= timestamp < cfg.TimestampOf(slot + 1)
  {
    var age, t := timestamp - cfg.l1Genesis, cfg.l1BlockTime;
    var q := age / t;
    assert q * t <= age < q * t + t;
    assert (slot + 1) * t == slot * t + t;
    if slot * t <= age < slot * t + t {
      DivUnique(age, slot, t);
    }
  }

  function NextMultiple(slot: nat): nat {
    (slot + EPOCH_SLOTS - 1) / EPOCH_SLOTS * EPOCH_SLOTS
  }

  // The status of a node that knows these epochs to be its own.
  function StatusAt(epochs: set<nat>, offset: nat, slot: nat, past: bool): DriverStatus {
    var sequencing, inclusion := (slot + offset) / EPOCH_SLOTS in epochs, slot / EPOCH_SLOTS in epochs;
    if sequencing && inclusion then Active
    else if sequencing then if past then SequencingOnly else HandoverWait
    else if inclusion then InclusionOnly
    else Inactive
  }

  // In the first slot of an epoch, and when a call fails, nothing is learned.
  predicate Learns(head: nat, answers: Answers) {
    head % EPOCH_SLOTS != 0 && answers.current.Some? && answers.next.Some?
  }

  ghost function Synced(epochs: set<nat>, head: nat, answers: Answers, me: Address): set<nat> {
    if !Learns(head, answers) then epochs
    else
      var e := head / EPOCH_SLOTS;
      Learned(Learned(epochs, e, answers.current.value == me), e + 1, answers.next.value == me)
  }

  class Node {
    const cfg: Config
    const sequencing: Window
    const inclusion: Window
    var endOfSequencingMark: nat

    constructor (cfg: Config)
      requires cfg.Valid()
      ensures Valid() && this.cfg == cfg && inclusion.Epochs() == {} && endOfSequencingMark == 0
      ensures fresh(sequencing.inner) && fresh(inclusion.inner)
    {
      this.cfg := cfg;
      endOfSequencingMark := 0;
      inclusion := new Window(0);
      sequencing := new Window(cfg.handoverWindowSlots);
    }

    /** Between syncs both windows hold the same epochs. */
    ghost predicate Valid()
      reads sequencing.inner, inclusion.inner
    {
      && cfg.Valid() && sequencing.inner != inclusion.inner
      && sequencing.Valid() && sequencing.offset == cfg.handoverWindowSlots
      && inclusion.Valid() && inclusion.offset == 0
      && sequencing.Epochs() == inclusion.Epochs()
    }

    method Sync(head: nat, answers: Answers, now: nat) returns (status: DriverStatus)
      requires Valid()
      modifies sequencing.inner, inclusion.inner
      ensures Valid() && inclusion.Epochs() == Synced(old(inclusion.Epochs()), head, answers, cfg.me)
      ensures status == StatusAt(inclusion.Epochs(), cfg.handoverWindowSlots, head, IsPastHandoverBuffer(now))
    {
      if head % EPOCH_SLOTS == 0 || answers.current.None? || answers.next.None? {
        return Status(head, now);
      }
      var ownCurrent, ownNext := answers.current.value == cfg.me, answers.next.value == cfg.me;
      inclusion.CalculateInclusion(head, ownCurrent, ownNext);
      sequencing.CalculateSequencing(inclusion);
      status := Status(head, now);
    }

    method UpdateEndOfSequencingMark(epoch: nat)
      modifies this
      ensures endOfSequencingMark == epoch
    {
      endOfSequencingMark := epoch;
    }

    function Status(slot: nat, now: nat): (r: DriverStatus)
      requires Valid()
      reads this, sequencing.inner, inclusion.inner
      ensures r == StatusAt(inclusion.Epochs(), cfg.handoverWindowSlots, slot, IsPastHandoverBuffer(now))
    {
      if sequencing.Contains(slot) && inclusion.Contains(slot) then Active
      else if sequencing.Contains(slot) then if IsPastHandoverBuffer(now) then SequencingOnly else HandoverWait
      else if inclusion.Contains(slot) then InclusionOnly
      else Inactive
    }

    predicate IsPastHandoverBuffer(now: nat)
      requires cfg.Valid()
      reads this
    {
      PastHandoverBuffer(cfg, endOfSequencingMark, now)
    }

    /** Whether a block with this timestamp is the one just before the end of the window. */
    method IsLastBlockInSequencingWindow(timestamp: nat) returns (r: bool)
      requires Valid()
      ensures exists end: nat :: IsEnd(sequencing.Epochs(), cfg.handoverWindowSlots, end) &&
                                 (r <==> timestamp == cfg.TimestampOf(Max(end, 1)) - cfg.l2BlockTime)
    {
      var slot := cfg.SlotOf(timestamp);
      var end := sequencing.End();
      LastBlockTime(cfg, timestamp, end);
      if SaturatingSub(end, 1) != slot {
        return false;
      }
      r := timestamp == cfg.TimestampOf(slot) + cfg.l1BlockTime - cfg.l2BlockTime;
    }
  }

  lemma {:induction false} LastBlockTime(cfg: Config, timestamp: nat, end: nat)
    requires cfg.Valid()
    ensures timestamp == cfg.TimestampOf(Max(end, 1)) - cfg.l2BlockTime <==>
            && SaturatingSub(end, 1) == cfg.SlotOf(timestamp)
            && timestamp == cfg.TimestampOf(SaturatingSub(end, 1)) + cfg.l1BlockTime - cfg.l2BlockTime
  {
    var n, t := Max(end, 1), cfg.l1BlockTime;
    assert n * t == (n - 1) * t + t;
    if timestamp == cfg.TimestampOf(n) - cfg.l2BlockTime {
      DivUnique((n - 1) * t + (t - cfg.l2BlockTime), n - 1, t);
    }
  }

  predicate PastHandoverBuffer(cfg: Config, endOfSequencingMark: nat, now: nat)
    requires cfg.Valid()
  {
    var slot := cfg.SlotOf(now);
    var firstSlot := SaturatingSub(NextMultiple(slot), cfg.handoverWindowSlots);
    || endOfSequencingMark == slot / EPOCH_SLOTS
    || SaturatingSub(now, cfg.TimestampOf(firstSlot)) >= cfg.handoverSkipSlots * cfg.l2BlockTime
  }

  /**
   While the previous operator's handover lasts, waiting ends with the mark for its epoch, or once
   the skipped L2 slots since the start of the sequencing window have passed.
   */
  lemma {:induction false} HandoverWaitEnds(cfg: Config, endOfSequencingMark: nat, now: nat, epoch: nat)
    requires cfg.Valid() && 1 <= epoch && 1 <= cfg.handoverWindowSlots < EPOCH_SLOTS
    requires epoch * EPOCH_SLOTS - cfg.handoverWindowSlots <= cfg.SlotOf(now) < epoch * EPOCH_SLOTS
    ensures PastHandoverBuffer(cfg, endOfSequencingMark, now) <==>
            || endOfSequencingMark == epoch - 1
            || now >= cfg.TimestampOf(epoch * EPOCH_SLOTS - cfg.handoverWindowSlots) + cfg.handoverSkipSlots * cfg.l2BlockTime
  {
    var first := epoch * EPOCH_SLOTS - cfg.handoverWindowSlots;
    var slot, t := cfg.SlotOf(now), cfg.l1BlockTime;
    assert NextMultiple(slot) == epoch * EPOCH_SLOTS;
    var age := SaturatingSub(now, cfg.l1Genesis);
    assert slot * t <= age;
    assert first * t <= slot * t;
    assert slot > 0 && age > 0;
  }

  // ---------- runs of syncs ----------

  /** A sync, and the epoch that the contract was in when it answered. */
  datatype SyncStep = SyncStep(head: nat, contractEpoch: nat, answers: Answers)

  ghost function Run(steps: seq<SyncStep>, me: Address): set<nat> {
    if steps == [] then {}
    else Synced(Run(steps[..|steps| - 1], me), steps[|steps| - 1].head, steps[|steps| - 1].answers, me)
  }

  /**
   There is one operator per epoch, and answers, when there are any, name it. They are about the
   epoch the contract is in; the node files them under the epoch of the head it processes.
   */
  predicate HonestStep(s: SyncStep, owner: nat -> Address) {
    && (s.answers.current.Some? ==> s.answers.current.value == owner(s.contractEpoch))
    && (s.answers.next.Some? ==> s.answers.next.value == owner(s.contractEpoch + 1))
  }

  predicate Honest(steps: seq<SyncStep>, owner: nat -> Address) {
    forall i :: 0 <= i < |steps| ==> HonestStep(steps[i], owner)
  }

  ghost predicate OnlyOwn(epochs: set<nat>, owner: nat -> Address, me: Address) {
    forall e :: e in epochs ==> owner(e) == me
  }

  // The contract is in the epoch of the head, or the sync learns nothing.
  predicate InStep(s: SyncStep) {
    Learns(s.head, s.answers) ==> s.contractEpoch == s.head / EPOCH_SLOTS
  }

  // What the sync files as the node's own is the node's own.
  predicate FilesOwn(s: SyncStep, owner: nat -> Address, me: Address) {
    Learns(s.head, s.answers) ==>
      var c, e := s.contractEpoch, s.head / EPOCH_SLOTS;
      && (owner(c) == me ==> owner(e) == me)
      && (owner(c + 1) == me ==> owner(e + 1) == me)
  }

  /** For given owners, a sync keeps the node's claims its own if and only if it files only its own. */
  lemma {:induction false} SyncKeepsOwnIff(epochs: set<nat>, s: SyncStep, owner: nat -> Address, me: Address)
    requires HonestStep(s, owner) && OnlyOwn(epochs, owner, me)
    ensures OnlyOwn(Synced(epochs, s.head, s.answers, me), owner, me) <==> FilesOwn(s, owner, me)
  {
    var e := s.head / EPOCH_SLOTS;
    if Learns(s.head, s.answers) {
      var first := Learned(epochs, e, s.answers.current.value == me);
      assert owner(s.contractEpoch) == me ==> e in first && e in Synced(epochs, s.head, s.answers, me);
      assert owner(s.contractEpoch + 1) == me ==> e + 1 in Synced(epochs, s.head, s.answers, me);
    }
  }

  function Answered(owner: nat -> Address, contractEpoch: nat): Answers {
    Answers(Some(owner(contractEpoch)), Some(owner(contractEpoch + 1)))
  }

  ghost predicate KeepsOwn(epochs: set<nat>, head: nat, contractEpoch: nat, owner: nat -> Address, me: Address) {
    OnlyOwn(epochs, owner, me) ==> OnlyOwn(Synced(epochs, head, Answered(owner, contractEpoch), me), owner, me)
  }

  /**
   A sync that learns keeps the node's claims its own for all owners if and only if the contract
   is in the epoch of the head.
   */
  lemma {:induction false} InStepIff(head: nat, contractEpoch: nat, me: Address)
    requires head % EPOCH_SLOTS != 0
    ensures (forall epochs: set<nat>, owner: nat -> Address :: KeepsOwn(epochs, head, contractEpoch, owner, me)) <==>
            contractEpoch == head / EPOCH_SLOTS
  {
    forall epochs: set<nat>, owner: nat -> Address
      ensures contractEpoch == head / EPOCH_SLOTS ==> KeepsOwn(epochs, head, contractEpoch, owner, me)
    {
      if OnlyOwn(epochs, owner, me) {
        SyncKeepsOwnIff(epochs, SyncStep(head, contractEpoch, Answered(owner, contractEpoch)), owner, me);
      }
    }
    if contractEpoch != head / EPOCH_SLOTS {
      var owner := (e: nat) => if e == contractEpoch then me else me + 1;
      SyncKeepsOwnIff({}, SyncStep(head, contractEpoch, Answered(owner, contractEpoch)), owner, me);
      assert !KeepsOwn({}, head, contractEpoch, owner, me);
    }
  }

  predicate AllInStep(steps: seq<SyncStep>) {
    forall i :: 0 <= i < |steps| ==> InStep(steps[i])
  }

  predicate AllFileOwn(steps: seq<SyncStep>, owner: nat -> Address, me: Address) {
    forall i :: 0 <= i < |steps| ==> FilesOwn(steps[i], owner, me)
  }

  /**
   Whatever calls fail and however the heads move, a node whose syncs file only its own epochs never
   claims another one.
   */
  lemma {:induction false} ClaimsOnlyOwn(steps: seq<SyncStep>, owner: nat -> Address, me: Address)
    requires Honest(steps, owner) && AllFileOwn(steps, owner, me)
    ensures OnlyOwn(Run(steps, me), owner, me)
    decreases |steps|
  {
    if steps != [] {
      var front, last := steps[..|steps| - 1], steps[|steps| - 1];
      ClaimsOnlyOwn(front, owner, me);
      assert HonestStep(last, owner) && FilesOwn(last, owner, me);
      SyncKeepsOwnIff(Run(front, me), last, owner, me);
    }
  }

  // Both never sequence, and never propose, at one slot.
  predicate Excluded(a: DriverStatus, b: DriverStatus) {
    !(a.CanSequence() && b.CanSequence()) && !(a.CanPropose() && b.CanPropose())
  }

  /**
   Mutual exclusion. Two nodes with different operators and the same handover window never both
   sequence, nor both propose, at the same slot, however their syncs interleave or fail, as long as
   each files only its own epochs.
   */
  lemma {:induction false} MutualExclusion(
    mine: seq<SyncStep>, theirs: seq<SyncStep>, owner: nat -> Address, me: Address, them: Address,
    offset: nat, slot: nat, myPast: bool, theirPast: bool)
    requires me != them && Honest(mine, owner) && Honest(theirs, owner)
    requires AllFileOwn(mine, owner, me) && AllFileOwn(theirs, owner, them)
    ensures Excluded(StatusAt(Run(mine, me), offset, slot, myPast), StatusAt(Run(theirs, them), offset, slot, theirPast))
  {
    ClaimsOnlyOwn(mine, owner, me);
    ClaimsOnlyOwn(theirs, owner, them);
  }

  /** In particular when each sync that learns finds the contract in the epoch of its head. */
  lemma {:induction false} ExclusionInStep(
    mine: seq<SyncStep>, theirs: seq<SyncStep>, owner: nat -> Address, me: Address, them: Address,
    offset: nat, slot: nat, myPast: bool, theirPast: bool)
    requires me != them && Honest(mine, owner) && Honest(theirs, owner)
    requires AllInStep(mine) && AllInStep(theirs)
    ensures Excluded(StatusAt(Run(mine, me), offset, slot, myPast), StatusAt(Run(theirs, them), offset, slot, theirPast))
  {
    InStepFilesOwn(mine, owner, me);
    InStepFilesOwn(theirs, owner, them);
    MutualExclusion(mine, theirs, owner, me, them, offset, slot, myPast, theirPast);
  }

  lemma {:induction false} InStepFilesOwn(steps: seq<SyncStep>, owner: nat -> Address, me: Address)
    requires AllInStep(steps)
    ensures AllFileOwn(steps, owner, me)
  {
    forall i | 0 <= i < |steps| ensures FilesOwn(steps[i], owner, me) {
      assert InStep(steps[i]);
    }
  }

  lemma {:induction false} RunOne(s: SyncStep, me: Address)
    ensures Run([s], me) == Synced({}, s.head, s.answers, me)
  {
    assert [s][..0] == [];
  }

  // An honest sync at this head, when the contract is in this epoch.
  function SyncAt(head: nat, contractEpoch: nat, owner: nat -> Address): SyncStep {
    SyncStep(head, contractEpoch, Answered(owner, contractEpoch))
  }

  // After syncs that find the contract in step and one at this head that finds it in epoch
  // `contractEpoch`, a node and one whose syncs all are in step exclude each other at this slot.
  ghost predicate ExcludedAfter(head: nat, contractEpoch: nat, owner: nat -> Address, me: Address, them: Address,
                                before: seq<SyncStep>, theirs: seq<SyncStep>, at: Moment)
  {
    me != them && Honest(before, owner) && Honest(theirs, owner) && AllInStep(before) && AllInStep(theirs) ==>
      Excluded(StatusAt(Run(before + [SyncAt(head, contractEpoch, owner)], me), at.offset, at.slot, at.myPast),
               StatusAt(Run(theirs, them), at.offset, at.slot, at.theirPast))
  }

  /** A slot, the handover window, and whether either node is past its handover buffer. */
  datatype Moment = Moment(offset: nat, slot: nat, myPast: bool, theirPast: bool)

  lemma {:induction false} InStepExcludes(head: nat, owner: nat -> Address, me: Address, them: Address,
                                          before: seq<SyncStep>, theirs: seq<SyncStep>, at: Moment)
    ensures ExcludedAfter(head, head / EPOCH_SLOTS, owner, me, them, before, theirs, at)
  {
    var last := SyncAt(head, head / EPOCH_SLOTS, owner);
    var mine := before + [last];
    if me != them && Honest(before, owner) && Honest(theirs, owner) && AllInStep(before) && AllInStep(theirs) {
      assert InStep(last) && HonestStep(last, owner);
      assert Honest(mine, owner) && AllInStep(mine);
      ExclusionInStep(mine, theirs, owner, me, them, at.offset, at.slot, at.myPast, at.theirPast);
    }
  }

  lemma {:induction false} FilesCurrent(head: nat, contractEpoch: nat, owner: nat -> Address)
    requires head % EPOCH_SLOTS != 0
    ensures head / EPOCH_SLOTS in Run([SyncAt(head, contractEpoch, owner)], owner(contractEpoch))
  {
    RunOne(SyncAt(head, contractEpoch, owner), owner(contractEpoch));
  }

  lemma {:induction false} BothClaim(a: set<nat>, b: set<nat>, e: nat)
    requires e in a && e in b
    ensures !Excluded(StatusAt(a, 0, e * EPOCH_SLOTS, true), StatusAt(b, 0, e * EPOCH_SLOTS, true))
  {
    assert e * EPOCH_SLOTS / EPOCH_SLOTS == e;
  }

  lemma {:induction false} HonestOne(head: nat, owner: nat -> Address)
    ensures var s := [SyncAt(head, head / EPOCH_SLOTS, owner)]; Honest(s, owner) && AllInStep(s)
    ensures Honest([], owner) && AllInStep([])
  {}

  // The contract's epoch belongs to one node, the epoch of the head to the other.
  lemma {:induction false} OutOfStepClash(head: nat, contractEpoch: nat, me: Address, them: Address)
    requires head % EPOCH_SLOTS != 0 && contractEpoch != head / EPOCH_SLOTS && me != them
    ensures var owner := (e: nat) => if e == contractEpoch then me else them;
            !ExcludedAfter(head, contractEpoch, owner, me, them, [], [SyncAt(head, head / EPOCH_SLOTS, owner)],
                           Moment(0, head / EPOCH_SLOTS * EPOCH_SLOTS, true, true))
  {
    hide Run, Excluded, StatusAt, Honest, AllInStep, SyncAt;
    var owner := (e: nat) => if e == contractEpoch then me else them;
    var e := head / EPOCH_SLOTS;
    var mine, theirs := SyncAt(head, contractEpoch, owner), SyncAt(head, e, owner);
    assert [] + [mine] == [mine];
    HonestOne(head, owner);
    FilesCurrent(head, contractEpoch, owner);
    FilesCurrent(head, e, owner);
    BothClaim(Run([mine], me), Run([theirs], them), e);
  }

  /**
   The exclusion itself: a sync that learns leaves a node excluded from every other one, for all owners
   and at all slots, if and only if it finds the contract in the epoch of its head.
   */
  lemma {:induction false} ExclusionIff(head: nat, contractEpoch: nat)
    requires head % EPOCH_SLOTS != 0
    ensures (forall owner: nat -> Address, me: Address, them: Address, before: seq<SyncStep>, theirs: seq<SyncStep>, at: Moment ::
               ExcludedAfter(head, contractEpoch, owner, me, them, before, theirs, at))
            <==> contractEpoch == head / EPOCH_SLOTS
  {
    hide ExcludedAfter;
    if contractEpoch == head / EPOCH_SLOTS {
      forall owner: nat -> Address, me: Address, them: Address, before: seq<SyncStep>, theirs: seq<SyncStep>, at: Moment
        ensures ExcludedAfter(head, contractEpoch, owner, me, them, before, theirs, at)
      {
        InStepExcludes(head, owner, me, them, before, theirs, at);
      }
    } else {
      OutOfStepClash(head, contractEpoch, 1, 2);
    }
  }

  // Epochs 0, 1 and 2, and all later ones, are owned by these.
  function Owners(a: Address, b: Address, c: Address): nat -> Address {
    (e: nat) => if e == 0 then a else if e == 1 then b else c
  }

  /**
   A sync that lags breaks the exclusion. One node owns epoch 0, the other epoch 1 and processes the
   block of slot 31 when the contract is in epoch 1 already: at slot 31 both propose.
   */
  lemma {:induction false} LaggingBothPropose(me: Address, them: Address, offset: nat, myPast: bool, theirPast: bool)
    requires me != them
    ensures var owner := Owners(me, them, them);
            var mine, theirs := [SyncAt(5, 0, owner)], [SyncAt(31, 1, owner)];
            && Honest(mine, owner) && Honest(theirs, owner)
            && StatusAt(Run(mine, me), offset, 31, myPast).CanPropose()
            && StatusAt(Run(theirs, them), offset, 31, theirPast).CanPropose()
  {
    var owner := Owners(me, them, them);
    RunOne(SyncAt(5, 0, owner), me);
    RunOne(SyncAt(31, 1, owner), them);
    assert HonestStep(SyncAt(5, 0, owner), owner) && HonestStep(SyncAt(31, 1, owner), owner);
    assert 0 in Run([SyncAt(5, 0, owner)], me) && 0 in Run([SyncAt(31, 1, owner)], them);
  }

  /**
   One node owns epochs 0 and 1, the other epoch 2. The same lag makes both claim epoch 1, and at slot
   32, where no sync corrects it, both sequence.
   */
  lemma {:induction false} LaggingBothSequence(me: Address, them: Address, offset: nat, myPast: bool, theirPast: bool)
    requires me != them && offset < EPOCH_SLOTS
    ensures var owner := Owners(me, me, them);
            var mine, theirs := [SyncAt(5, 0, owner)], [SyncAt(31, 1, owner), SyncAt(32, 1, owner)];
            && Honest(mine, owner) && Honest(theirs, owner)
            && StatusAt(Run(mine, me), offset, 32, myPast).CanSequence()
            && StatusAt(Run(theirs, them), offset, 32, theirPast).CanSequence()
  {
    var owner := Owners(me, me, them);
    var first, second := SyncAt(31, 1, owner), SyncAt(32, 1, owner);
    RunOne(SyncAt(5, 0, owner), me);
    RunOne(first, them);
    assert [first, second][..1] == [first];
    assert Run([first, second], them) == Run([first], them);
    assert 1 in Run([SyncAt(5, 0, owner)], me) && 1 in Run([first], them);
    assert 32 / EPOCH_SLOTS == 1 && (32 + offset) / EPOCH_SLOTS == 1;
  }

  // The node's knowledge about the epoch is right.
  ghost predicate Knows(epochs: set<nat>, owner: nat -> Address, me: Address, epoch: nat) {
    epoch in epochs <==> owner(epoch) == me
  }

  lemma {:induction false} SyncTeaches(epochs: set<nat>, s: SyncStep, owner: nat -> Address, me: Address, epoch: nat)
    requires HonestStep(s, owner) && InStep(s)
    ensures Learns(s.head, s.answers) && s.head / EPOCH_SLOTS <= epoch <= s.head / EPOCH_SLOTS + 1 ==>
              Knows(Synced(epochs, s.head, s.answers, me), owner, me, epoch)
    ensures Knows(epochs, owner, me, epoch) && s.head / EPOCH_SLOTS <= epoch + 1 && epoch <= s.head / EPOCH_SLOTS + 2 ==>
              Knows(Synced(epochs, s.head, s.answers, me), owner, me, epoch)
  {}

  // Some sync of the run heard about the epoch, and later syncs stayed near it.
  ghost predicate HeardAt(steps: seq<SyncStep>, k: nat, epoch: nat) {
    && k < |steps| && Learns(steps[k].head, steps[k].answers)
    && steps[k].head / EPOCH_SLOTS <= epoch <= steps[k].head / EPOCH_SLOTS + 1
    && forall j :: k < j < |steps| ==> NearEpoch(steps[j].head, epoch)
  }

  predicate NearEpoch(head: nat, epoch: nat) {
    head / EPOCH_SLOTS <= epoch + 1 && epoch <= head / EPOCH_SLOTS + 2
  }

  /**
   What was heard about an epoch is remembered for as long as the head is at most one epoch past
   it: the three entries are enough for the previous, the current and the next epoch.
   */
  lemma {:induction false} HeardIsKnown(steps: seq<SyncStep>, owner: nat -> Address, me: Address, k: nat, epoch: nat)
    requires Honest(steps, owner) && AllInStep(steps) && HeardAt(steps, k, epoch)
    ensures Knows(Run(steps, me), owner, me, epoch)
    decreases |steps|
  {
    var front, last := steps[..|steps| - 1], steps[|steps| - 1];
    assert HonestStep(last, owner) && InStep(last);
    SyncTeaches(Run(front, me), last, owner, me, epoch);
    if k < |front| {
      HeardIsKnown(front, owner, me, k, epoch);
      assert NearEpoch(last.head, epoch);
    }
  }

  /**
   A node that heard about the epochs a slot belongs to, plain and shifted, has at that slot
   exactly the status that its ownership of the two gives it.
   */
  lemma {:induction false} StatusIsExact(steps: seq<SyncStep>, owner: nat -> Address, me: Address,
                                         offset: nat, slot: nat, past: bool, i: nat, j: nat)
    requires Honest(steps, owner) && AllInStep(steps)
    requires HeardAt(steps, i, slot / EPOCH_SLOTS) && HeardAt(steps, j, (slot + offset) / EPOCH_SLOTS)
    ensures var r := StatusAt(Run(steps, me), offset, slot, past);
            var sequences, includes := owner((slot + offset) / EPOCH_SLOTS) == me, owner(slot / EPOCH_SLOTS) == me;
            && (r.CanPropose() <==> includes)
            && (r.CanSequence() <==> sequences && (includes || past))
            && (r.HandoverWait? <==> sequences && !includes && !past)
            && (r.Inactive? <==> !sequences && !includes)
  {
    HeardIsKnown(steps, owner, me, i, slot / EPOCH_SLOTS);
    HeardIsKnown(steps, owner, me, j, (slot + offset) / EPOCH_SLOTS);
  }

  // Syncs at one slot after the other, none failing, starting inside an epoch.
  ghost predicate EverySlot(steps: seq<SyncStep>) {
    && steps != [] && steps[0].head % EPOCH_SLOTS != 0
    && forall i :: 0 <= i < |steps| ==> NthSlot(steps[i], steps[0].head, i)
  }

  predicate NthSlot(s: SyncStep, first: nat, i: nat) {
    s.head == first + i && s.answers.current.Some? && s.answers.next.Some?
  }

  // The latest sync that learned something; the first slot of an epoch teaches nothing.
  function LastLesson(head: nat, n: nat): (k: nat)
    requires n > 0
  {
    if head % EPOCH_SLOTS == 0 && n > 1 then n - 2 else n - 1
  }

  /**
   A node that syncs at every slot has the exact status at every slot, the first slot of an epoch
   included, where it relies on what it learned in the epoch before.
   */
  lemma {:induction false} SteadyNodeIsExact(steps: seq<SyncStep>, owner: nat -> Address, me: Address, offset: nat, past: bool)
    requires Honest(steps, owner) && AllInStep(steps) && EverySlot(steps) && offset < EPOCH_SLOTS
    ensures var slot := steps[|steps| - 1].head;
            var r := StatusAt(Run(steps, me), offset, slot, past);
            var sequences, includes := owner((slot + offset) / EPOCH_SLOTS) == me, owner(slot / EPOCH_SLOTS) == me;
            && (r.CanPropose() <==> includes)
            && (r.CanSequence() <==> sequences && (includes || past))
  {
    var n := |steps|;
    assert NthSlot(steps[n - 1], steps[0].head, n - 1);
    var slot := steps[n - 1].head;
    var k := LastLesson(slot, n);
    assert NthSlot(steps[k], steps[0].head, k);
    forall e | e == slot / EPOCH_SLOTS || e == (slot + offset) / EPOCH_SLOTS ensures HeardAt(steps, k, e) {
      forall j | k < j < n ensures NearEpoch(steps[j].head, e) {
        assert j == n - 1;
      }
    }
    StatusIsExact(steps, owner, me, offset, slot, past, k, k);
  }

  // ---------- the documented timeline ----------

  /**
   A node that owns epoch `e` and neither neighbour waits or sequences only in the last `offset`
   slots before it, is active until `offset` slots before its end, only includes in those, and is
   inactive otherwise.
   */
  lemma {:induction false} IsolatedTimeline(epochs: set<nat>, e: nat, offset: nat, slot: nat, past: bool)
    requires 1 <= e && e in epochs && e - 1 !in epochs && e + 1 !in epochs
    requires 1 <= offset < EPOCH_SLOTS
    requires (e - 1) * EPOCH_SLOTS <= slot < (e + 2) * EPOCH_SLOTS - offset
    ensures var start, end := e * EPOCH_SLOTS, (e + 1) * EPOCH_SLOTS;
            StatusAt(epochs, offset, slot, past) ==
            if slot < start - offset then Inactive
            else if slot < start then (if past then SequencingOnly else HandoverWait)
            else if slot < end - offset then Active
            else if slot < end then InclusionOnly
            else Inactive
  {}

  /** With consecutive epochs owned, there is no handover between them. */
  lemma {:induction false} NoHandoverToSelf(epochs: set<nat>, e: nat, offset: nat, slot: nat, past: bool)
    requires e in epochs && e + 1 in epochs && offset <= EPOCH_SLOTS
    requires e * EPOCH_SLOTS <= slot < (e + 2) * EPOCH_SLOTS - offset
    ensures StatusAt(epochs, offset, slot, past).Active?
  {}

  /** The inclusion window is new in epoch `e` if and only if `e` is owned and `e - 1` is not; never in epoch 0. */
  lemma {:induction false} IsNewIff(w: Window, slot: nat)
    requires w.Valid() && w.offset == 0
    ensures var e := slot / EPOCH_SLOTS;
            w.IsNew(slot) <==> 1 <= e && e in w.Epochs() && e - 1 !in w.Epochs()
  {}
}
