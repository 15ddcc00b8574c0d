/**
 The epochs a node knows to be its own, kept in two rings of three entries, and the driver status
 that follows from them. The inclusion window is the node's epochs; the sequencing window is the
 same epochs, shifted earlier by the handover offset.
 */
module Lookahead {
  import opened Integers

  const EPOCH_SLOTS: nat := 32
  const WINDOW_SIZE: nat := 3

  /** Whether an epoch is the node's own. An entry that is not set says nothing, and has epoch 0. */
  datatype Mark = Mark(isSet: bool, epoch: nat)

  function EpochsOf(ring: seq<Mark>): set<nat> {
    set i | 0 <= i < |ring| && ring[i].isSet :: ring[i].epoch
  }

  // An epoch that is set stands at its own index.
  ghost predicate RingValid(ring: seq<Mark>) {
    && |ring| == WINDOW_SIZE
    && forall i :: 0 <= i < |ring| ==> if ring[i].isSet then ring[i].epoch % WINDOW_SIZE == i else ring[i].epoch == 0
  }

  // The epochs that do not have the index of `epoch` in the ring.
  ghost function Erased(epochs: set<nat>, epoch: nat): set<nat> {
    set e | e in epochs && e % WINDOW_SIZE != epoch % WINDOW_SIZE
  }

  // The epochs after `epoch` takes its index in the ring.
  ghost function Applied(epochs: set<nat>, epoch: nat): set<nat> {
    Erased(epochs, epoch) + {epoch}
  }

  ghost function Learned(epochs: set<nat>, epoch: nat, own: bool): set<nat> {
    if own then Applied(epochs, epoch) else epochs - {epoch}
  }

  // One past the last slot of the largest epoch, shifted, or 0 for no epochs.
  ghost predicate IsEnd(epochs: set<nat>, offset: nat, end: nat) {
    if epochs == {} then end == 0
    else exists e :: e in epochs && (forall d :: d in epochs ==> d <= e) &&
                     end == SaturatingSub(e * EPOCH_SLOTS + EPOCH_SLOTS, offset)
  }

  predicate InShiftedEpoch(epoch: nat, offset: nat, slot: nat) {
    SaturatingSub(epoch * EPOCH_SLOTS, offset) <= slot < SaturatingSub(epoch * EPOCH_SLOTS + EPOCH_SLOTS, offset)
  }

  // The first entry whose shifted epoch has the slot decides, set or not.
  predicate FirstMatch(ring: seq<Mark>, offset: nat, slot: nat)
    decreases |ring|
  {
    ring != [] &&
    if InShiftedEpoch(ring[0].epoch, offset, slot) then ring[0].isSet else FirstMatch(ring[1..], offset, slot)
  }

  lemma {:induction false} ShiftedEpoch(epoch: nat, offset: nat, slot: nat)
    ensures InShiftedEpoch(epoch, offset, slot) <==> epoch == (slot + offset) / EPOCH_SLOTS
  {}

  lemma {:induction false} FirstMatchFrom(ring: seq<Mark>, offset: nat, slot: nat, i: nat)
    requires i <= |ring|
    ensures FirstMatch(ring[i..], offset, slot) <==>
            i < |ring| && if InShiftedEpoch(ring[i].epoch, offset, slot) then ring[i].isSet
                          else FirstMatch(ring[i + 1..], offset, slot)
    ensures ring[0..] == ring
  {
    if i < |ring| {
      assert ring[i..][1..] == ring[i + 1..];
    }
  }

  /** Entries that are not set match epoch 0, yet never hide that epoch 0 is set. */
  lemma {:induction false} FirstMatchIff(ring: seq<Mark>, offset: nat, slot: nat)
    requires RingValid(ring)
    ensures FirstMatch(ring, offset, slot) <==> (slot + offset) / EPOCH_SLOTS in EpochsOf(ring)
  {
    var e := (slot + offset) / EPOCH_SLOTS;
    forall i | 0 <= i < |ring| ensures InShiftedEpoch(ring[i].epoch, offset, slot) <==> ring[i].epoch == e {
      ShiftedEpoch(ring[i].epoch, offset, slot);
    }
    hide InShiftedEpoch;
    FirstMatchFrom(ring, offset, slot, 3);
    FirstMatchFrom(ring, offset, slot, 2);
    FirstMatchFrom(ring, offset, slot, 1);
    FirstMatchFrom(ring, offset, slot, 0);
    if e in EpochsOf(ring) {
      assert ring[e % WINDOW_SIZE] == Mark(true, e);
    }
  }

  class Window {
    const offset: nat
    const inner: array<Mark>

    constructor (offset: nat)
      ensures Valid() && Epochs() == {} && this.offset == offset && fresh(inner)
    {
      this.offset := offset;
      inner := new Mark[WINDOW_SIZE](i => Mark(false, 0));
    }

    ghost predicate Valid()
      reads inner
    {
      RingValid(inner[..])
    }

    ghost function Epochs(): set<nat>
      reads inner
    {
      EpochsOf(inner[..])
    }

    method ApplyEpoch(epoch: nat)
      requires Valid()
      modifies inner
      ensures Valid() && Epochs() == Applied(old(Epochs()), epoch)
    {
      inner[epoch % WINDOW_SIZE] := Mark(true, epoch);
      ApplyAt(old(inner[..]), epoch);
      assert inner[..] == old(inner[..])[epoch % WINDOW_SIZE := Mark(true, epoch)];
    }

    /** Forgets whichever epoch has the index of this one. */
    method ResetAtEpoch(epoch: nat)
      requires Valid()
      modifies inner
      ensures Valid() && Epochs() == Erased(old(Epochs()), epoch)
    {
      inner[epoch % WINDOW_SIZE] := Mark(false, 0);
      ResetAt(old(inner[..]), epoch);
      assert inner[..] == old(inner[..])[epoch % WINDOW_SIZE := Mark(false, 0)];
    }

    /** The ring answers as the set of epochs does. */
    predicate Contains(slot: nat)
      requires Valid()
      reads inner
      ensures Contains(slot) <==> (slot + offset) / EPOCH_SLOTS in Epochs()
    {
      FirstMatchIff(inner[..], offset, slot);
      FirstMatch(inner[..], offset, slot)
    }

    predicate IsNew(slot: nat)
      requires Valid()
      reads inner
    {
      Contains(slot) && !Contains(SaturatingSub(slot, EPOCH_SLOTS))
    }

    /** The first slot after the largest epoch, or 0 if there is no epoch. */
    method End() returns (end: nat)
      requires Valid()
      ensures IsEnd(Epochs(), offset, end)
    {
      var highest, isSet := 0, false;
      var i := 0;
      while i < inner.Length
        invariant 0 <= i <= inner.Length
        invariant isSet <==> EpochsOf(inner[..i]) != {}
        invariant !isSet ==> highest == 0
        invariant isSet ==> highest in EpochsOf(inner[..i]) && forall d :: d in EpochsOf(inner[..i]) ==> d <= highest
      {
        EpochsOfSnoc(inner[..i], inner[i]);
        assert inner[..i + 1] == inner[..i] + [inner[i]];
        if inner[i].isSet && inner[i].epoch >= highest {
          highest, isSet := inner[i].epoch, true;
        }
        i := i + 1;
      }
      assert inner[..i] == inner[..];
      if highest == 0 && !isSet {
        return 0;
      }
      end := SaturatingSub(highest * EPOCH_SLOTS + EPOCH_SLOTS, offset);
    }

    /** Learns whether the current and the next epoch are the node's own. */
    method CalculateInclusion(head: nat, ownCurrent: bool, ownNext: bool)
      requires Valid() && offset == 0
      modifies inner
      ensures Valid()
      ensures Epochs() == Learned(Learned(old(Epochs()), head / EPOCH_SLOTS, ownCurrent), head / EPOCH_SLOTS + 1, ownNext)
    {
      LearnEpoch(head / EPOCH_SLOTS, ownCurrent);
      LearnEpoch(head / EPOCH_SLOTS + 1, ownNext);
    }

    method LearnEpoch(epoch: nat, own: bool)
      requires Valid() && offset == 0
      modifies inner
      ensures Valid() && Epochs() == Learned(old(Epochs()), epoch, own)
    {
      if own {
        ApplyEpoch(epoch);
      } else if Contains(epoch * EPOCH_SLOTS) {
        OneEpochPerIndex(inner[..], epoch);
        ResetAtEpoch(epoch);
      }
    }

    /** Takes over the epochs of the inclusion window, whatever was there before. */
    method CalculateSequencing(inclusion: Window)
      requires inclusion.Valid() && Valid() && inclusion.inner != inner
      modifies inner
      ensures Valid() && Epochs() == inclusion.Epochs()
    {
      inner[0], inner[1], inner[2] := Mark(false, 0), Mark(false, 0), Mark(false, 0);
      var i := 0;
      while i < inclusion.inner.Length
        invariant 0 <= i <= inner.Length
        invariant Valid()
        invariant forall k :: 0 <= k < i ==> inner[k] == inclusion.inner[k]
        invariant forall k :: i <= k < inner.Length ==> inner[k] == Mark(false, 0)
      {
        var mark := inclusion.inner[i];
        if mark.isSet {
          assert mark == inclusion.inner[..][i];
          inner[mark.epoch % WINDOW_SIZE] := Mark(true, mark.epoch);
        } else {
          assert inclusion.inner[..][i].epoch == 0;
        }
        i := i + 1;
      }
      assert inner[..] == inclusion.inner[..];
    }
  }

  lemma {:induction false} EpochsOfSnoc(ring: seq<Mark>, m: Mark)
    ensures EpochsOf(ring + [m]) == EpochsOf(ring) + if m.isSet then {m.epoch} else {}
  {
    var all := ring + [m];
    assert forall i :: 0 <= i < |ring| ==> all[i] == ring[i];
    assert all[|ring|] == m;
    forall e | e in EpochsOf(ring) ensures e in EpochsOf(all) {
      var i :| 0 <= i < |ring| && ring[i].isSet && ring[i].epoch == e;
      assert all[i].epoch == e;
    }
  }

  lemma {:induction false} ApplyAt(ring: seq<Mark>, epoch: nat)
    requires RingValid(ring)
    ensures var after := ring[epoch % WINDOW_SIZE := Mark(true, epoch)];
            RingValid(after) && EpochsOf(after) == Applied(EpochsOf(ring), epoch)
  {
    var i := epoch % WINDOW_SIZE;
    var after := ring[i := Mark(true, epoch)];
    assert forall k :: 0 <= k < |ring| && k != i ==> after[k] == ring[k];
    assert after[i].epoch == epoch;
    forall e | e in Applied(EpochsOf(ring), epoch) ensures e in EpochsOf(after) {
      if e != epoch {
        assert after[e % WINDOW_SIZE] == Mark(true, e);
      }
    }
  }

  /** An epoch that is set is the only one at its index. */
  lemma {:induction false} OneEpochPerIndex(ring: seq<Mark>, epoch: nat)
    requires RingValid(ring) && epoch in EpochsOf(ring)
    ensures Erased(EpochsOf(ring), epoch) == EpochsOf(ring) - {epoch}
  {
    forall e | e in EpochsOf(ring) && e % WINDOW_SIZE == epoch % WINDOW_SIZE ensures e == epoch {
      assert ring[e % WINDOW_SIZE] == Mark(true, e) && ring[epoch % WINDOW_SIZE] == Mark(true, epoch);
    }
  }

  lemma {:induction false} ResetAt(ring: seq<Mark>, epoch: nat)
    requires RingValid(ring)
    ensures var after := ring[epoch % WINDOW_SIZE := Mark(false, 0)];
            RingValid(after) && EpochsOf(after) == Erased(EpochsOf(ring), epoch)
  {
    var i := epoch % WINDOW_SIZE;
    var after := ring[i := Mark(false, 0)];
    assert forall k :: 0 <= k < |ring| && k != i ==> after[k] == ring[k];
    forall e | e in Erased(EpochsOf(ring), epoch) ensures e in EpochsOf(after) {
      assert ring[e % WINDOW_SIZE] == Mark(true, e);
      assert after[e % WINDOW_SIZE] == Mark(true, e);
    }
  }
}
