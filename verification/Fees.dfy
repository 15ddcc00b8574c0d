/**
 Fee hints of a blob transaction. The base fee a transaction can pay is its max fee less its
 priority fee; the program raises hints in several ways, and the results here say what each of
 them covers, over any number of L1 blocks and any sequence of raises.

 Fees are u128 in the program. They are unbounded here; Retries.dfy proves that the doubling in
 the retry loop stays far below the bound.
 */
module Fees {
  import opened Integers

  /** A value of the fee hints. */
  datatype Hints = Hints(maxPriorityFee: nat, maxFee: nat, blobFee: nat) {

    // The priority fee is part of the max fee; the program subtracts one from the other.
    predicate Valid() {
      maxPriorityFee <= maxFee
    }

    function BaseFee(): nat
      requires Valid()
    {
      maxFee - maxPriorityFee
    }

    function Doubled(): Hints {
      Hints(2 * maxPriorityFee, 2 * maxFee, 2 * blobFee)
    }

    function WithNextBlockIncrease(): Hints
      requires Valid()
    {
      Hints(maxPriorityFee, maxFee - BaseFee() + Increased(BaseFee()), Increased(blobFee))
    }

    function WithEnforcedMinTip(tip: nat): Hints {
      if tip > maxPriorityFee
      then Hints(tip + 1, maxFee + (tip - maxPriorityFee) + 1, blobFee + 1)
      else this
    }

    predicate Bumps(newBaseFee: nat) {
      !(newBaseFee < SaturatingSub(maxFee, maxPriorityFee))
    }

    function BumpedTo(newBaseFee: nat): Hints {
      if !Bumps(newBaseFee) then this
      else if maxPriorityFee < newBaseFee / 10
      then Hints((newBaseFee + 9) / 10, newBaseFee + (newBaseFee + 9) / 10, blobFee)
      else Hints(maxPriorityFee, newBaseFee + maxPriorityFee, blobFee)
    }

    predicate AtMost(that: Hints) {
      maxPriorityFee <= that.maxPriorityFee && maxFee <= that.maxFee && blobFee <= that.blobFee
    }
  }

  // An increase by 12.5%, rounded down, plus one.
  function Increased(fee: nat): nat {
    fee * 1125 / 1000 + 1
  }

  /** Fee hints as an object that is raised in place. */
  class FeesHints {
    var maxPriorityFeePerGas: nat
    var maxFeePerGas: nat
    var blobFeePerGas: nat

    constructor (hints: Hints)
      ensures Value() == hints
    {
      maxPriorityFeePerGas, maxFeePerGas, blobFeePerGas := hints.maxPriorityFee, hints.maxFee, hints.blobFee;
    }

    function Value(): Hints
      reads this
    {
      Hints(maxPriorityFeePerGas, maxFeePerGas, blobFeePerGas)
    }

    method Double()
      modifies this
      ensures Value() == old(Value()).Doubled()
    {
      maxPriorityFeePerGas := maxPriorityFeePerGas * 2;
      maxFeePerGas := maxFeePerGas * 2;
      blobFeePerGas := blobFeePerGas * 2;
    }

    method NextBlockIncrease()
      requires Value().Valid()
      modifies this
      ensures Value() == old(Value()).WithNextBlockIncrease()
    {
      var baseFee := maxFeePerGas - maxPriorityFeePerGas;
      var baseFeeIncreased := baseFee * 1125 / 1000 + 1;
      maxFeePerGas := maxFeePerGas - baseFee + baseFeeIncreased;
      blobFeePerGas := blobFeePerGas * 1125 / 1000 + 1;
    }

    method BumpBaseFee(newBaseFee: nat) returns (bumped: bool)
      modifies this
      ensures bumped == old(Value()).Bumps(newBaseFee)
      ensures Value() == old(Value()).BumpedTo(newBaseFee)
    {
      if newBaseFee < SaturatingSub(maxFeePerGas, maxPriorityFeePerGas) {
        return false;
      }
      maxFeePerGas := newBaseFee + maxPriorityFeePerGas;
      if maxPriorityFeePerGas < newBaseFee / 10 {
        // Replace the old priority fee by a tenth of the new base fee, rounded up.
        maxFeePerGas := SaturatingSub(maxFeePerGas, maxPriorityFeePerGas);
        maxPriorityFeePerGas := (newBaseFee + 9) / 10;
        maxFeePerGas := maxFeePerGas + maxPriorityFeePerGas;
      }
      return true;
    }
  }

  // ---------- what each raise covers ----------

  /**
   A bump covers exactly the new base fee, tips at least a tenth of it and no more than needed for that, and lowers
   nothing; without a bump the hints stay as they are.
   */
  lemma {:induction false} BumpCovers(h: Hints, newBaseFee: nat)
    requires h.Valid()
    ensures var b := h.BumpedTo(newBaseFee);
            && b.Valid() && h.AtMost(b) && b.blobFee == h.blobFee
            && b.BaseFee() >= newBaseFee && b.BaseFee() >= h.BaseFee()
            && (h.Bumps(newBaseFee) ==> b.BaseFee() == newBaseFee && 10 * b.maxPriorityFee + 9 >= newBaseFee)
            && (b.maxPriorityFee == h.maxPriorityFee || 10 * (b.maxPriorityFee - 1) < newBaseFee)
            && (h.Bumps(newBaseFee) <==> h.BaseFee() <= newBaseFee)
            && (!h.Bumps(newBaseFee) ==> b == h)
  {
    if h.Bumps(newBaseFee) && !(h.maxPriorityFee < newBaseFee / 10) {
      assert newBaseFee <= 10 * (newBaseFee / 10) + 9;
    }
  }

  /**
   Enforcing a tip reaches it without giving up any base fee; a tip that is high enough stays, and otherwise tip and blob
   fee end up one wei above what is asked for.
   */
  lemma {:induction false} TipCovers(h: Hints, tip: nat)
    requires h.Valid()
    ensures var t := h.WithEnforcedMinTip(tip);
            && t.Valid() && h.AtMost(t) && t.maxPriorityFee >= tip && t.BaseFee() == h.BaseFee()
            && (tip <= h.maxPriorityFee ==> t == h)
            && (tip > h.maxPriorityFee ==> t.maxPriorityFee == tip + 1 && t.blobFee == h.blobFee + 1)
  {}

  // ---------- growth over blocks ----------

  // The EIP-1559 adjustment: an eighth of the fee, in proportion to the distance from the target.
  function Adjustment(baseFee: nat, distance: nat, gasTarget: nat): nat
    requires gasTarget > 0
  {
    baseFee * distance / gasTarget / 8
  }

  /** The base fee of the next block (Specification section of EIP-1559). */
  function NextBaseFee(baseFee: nat, gasUsed: nat, gasTarget: nat): nat
    requires gasTarget > 0
  {
    if gasUsed == gasTarget then baseFee
    else if gasUsed > gasTarget then
      var delta := Adjustment(baseFee, gasUsed - gasTarget, gasTarget);
      baseFee + if delta > 1 then delta else 1
    else
      SaturatingSub(baseFee, Adjustment(baseFee, gasTarget - gasUsed, gasTarget))
  }

  /** A block of L1, by its gas target and the gas it used; the gas limit is twice the target. */
  datatype Usage = Usage(gasUsed: nat, gasTarget: nat) {
    predicate Valid() {
      gasTarget > 0 && gasUsed <= 2 * gasTarget
    }
  }

  predicate AllValid(blocks: seq<Usage>) {
    forall i :: 0 <= i < |blocks| ==> blocks[i].Valid()
  }

  function BaseFeeAfter(baseFee: nat, blocks: seq<Usage>): nat
    requires AllValid(blocks)
    decreases |blocks|
  {
    if blocks == [] then baseFee
    else BaseFeeAfter(NextBaseFee(baseFee, blocks[0].gasUsed, blocks[0].gasTarget), blocks[1..])
  }

  function Raised(h: Hints, n: nat): (r: Hints)
    requires h.Valid()
    ensures r.Valid()
    decreases n
  {
    if n == 0 then h else Raised(h.WithNextBlockIncrease(), n - 1)
  }

  lemma {:induction false} AdjustmentAtMost(baseFee: nat, distance: nat, gasTarget: nat)
    requires gasTarget > 0 && distance <= gasTarget
    ensures Adjustment(baseFee, distance, gasTarget) <= baseFee / 8
  {
    var q := baseFee * distance / gasTarget;
    assert q * gasTarget <= baseFee * distance <= baseFee * gasTarget;
    assert q <= baseFee;
  }

  lemma {:induction false} IncreasedBySum(fee: nat)
    ensures Increased(fee) == fee + fee / 8 + 1
  {
    var r := fee % 8;
    assert fee * 1125 == 1000 * (fee + fee / 8) + 125 * r;
  }

  lemma {:induction false} NextBaseFeeAtMost(baseFee: nat, limit: nat, b: Usage)
    requires b.Valid() && baseFee <= limit
    ensures NextBaseFee(baseFee, b.gasUsed, b.gasTarget) <= Increased(limit)
  {
    hide Adjustment, Increased;
    IncreasedBySum(limit);
    if b.gasUsed > b.gasTarget {
      AdjustmentAtMost(baseFee, b.gasUsed - b.gasTarget, b.gasTarget);
    }
  }

  /**
   Raised once for every block to come, the hints still pay for the base fee, however full those
   blocks are, and the priority fee stays what it was.
   */
  lemma {:induction false} RaisedCovers(h: Hints, baseFee: nat, blocks: seq<Usage>)
    requires h.Valid() && baseFee <= h.BaseFee() && AllValid(blocks)
    ensures BaseFeeAfter(baseFee, blocks) <= Raised(h, |blocks|).BaseFee()
    ensures Raised(h, |blocks|).maxPriorityFee == h.maxPriorityFee
    decreases |blocks|
  {
    hide NextBaseFee, Increased;
    if blocks != [] {
      NextBaseFeeAtMost(baseFee, h.BaseFee(), blocks[0]);
      RaisedCovers(h.WithNextBlockIncrease(),
                   NextBaseFee(baseFee, blocks[0].gasUsed, blocks[0].gasTarget), blocks[1..]);
    }
  }

  // A blob fee that rises by at most an eighth from block to block, as EIP-4844 has it.
  predicate EighthMore(blobFees: seq<nat>) {
    forall i :: 0 <= i < |blobFees| - 1 ==> AtMostEighthMore(blobFees[i], blobFees[i + 1])
  }

  predicate AtMostEighthMore(fee: nat, next: nat) {
    next <= fee + fee / 8
  }

  /** The same for the blob fee: each raise covers one more block, and is one wei above an eighth. */
  lemma {:induction false} RaisedCoversBlobs(h: Hints, blobFees: seq<nat>)
    requires h.Valid() && blobFees != [] && EighthMore(blobFees) && blobFees[0] <= h.blobFee
    ensures blobFees[|blobFees| - 1] <= Raised(h, |blobFees| - 1).blobFee
    ensures h.WithNextBlockIncrease().blobFee == h.blobFee + h.blobFee / 8 + 1
    decreases |blobFees|
  {
    hide Increased;
    IncreasedBySum(h.blobFee);
    if |blobFees| > 1 {
      var rest := blobFees[1..];
      assert AtMostEighthMore(blobFees[0], blobFees[1]);
      forall i | 0 <= i < |rest| - 1 ensures AtMostEighthMore(rest[i], rest[i + 1]) {
        assert AtMostEighthMore(blobFees[i + 1], blobFees[i + 2]);
      }
      RaisedCoversBlobs(h.WithNextBlockIncrease(), rest);
    }
  }

  /** After a full block the raise is exactly the base fee, or one wei above it from 8 wei on. */
  lemma {:induction false} RaiseIsTight(baseFee: nat, gasTarget: nat)
    requires gasTarget > 0
    ensures NextBaseFee(baseFee, 2 * gasTarget, gasTarget) + (if baseFee < 8 then 0 else 1) == Increased(baseFee)
  {
    hide Increased, Adjustment;
    IncreasedBySum(baseFee);
    FullShare(baseFee, gasTarget);
  }

  lemma {:induction false} FullShare(baseFee: nat, gasTarget: nat)
    requires gasTarget > 0
    ensures Adjustment(baseFee, gasTarget, gasTarget) == baseFee / 8
  {
    DivUnique(baseFee * gasTarget, baseFee, gasTarget);
  }
}
